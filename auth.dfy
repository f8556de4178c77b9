/** Bearer-header parsing in `authenticate` and the role gate `authorize` (auth.middleware.js). */
module Auth {
  import opened Wrappers
  import opened ErrorHandler

  const BearerPrefix := "Bearer "
  const LoginRequired := "Vui lòng đăng nhập."
  const NotEnoughRights := "Bạn không đủ quyền hạn để truy cập tài nguyên."

  predicate StartsWith(s: string, prefix: string)
  {
    |prefix| <= |s| && s[..|prefix|] == prefix
  }

  /** `s.split(sep)`: the pieces between separators, empty pieces included. */
  function Split(s: string, sep: char): (pieces: seq<string>)
    ensures |pieces| >= 1
    decreases |s|
  {
    if |s| == 0 then [""]
    else if s[0] == sep then [""] + Split(s[1..], sep)
    else
      var rest := Split(s[1..], sep);
      [[s[0]] + rest[0]] + rest[1..]
  }

  /** `pieces.join(sep)`. */
  function Join(pieces: seq<string>, sep: char): string
    requires |pieces| >= 1
    decreases |pieces|
  {
    if |pieces| == 1 then pieces[0] else pieces[0] + [sep] + Join(pieces[1..], sep)
  }

  /** Joining the pieces again gives back the original text, and no piece holds the separator. */
  lemma {:induction false} SplitJoin(s: string, sep: char)
    ensures Join(Split(s, sep), sep) == s
    ensures forall i :: 0 <= i < |Split(s, sep)| ==> sep !in Split(s, sep)[i]
    decreases |s|
  {
    if |s| == 0 {
    } else if s[0] == sep {
      SplitJoin(s[1..], sep);
      var rest := Split(s[1..], sep);
      assert Split(s, sep) == [""] + rest;
      assert Split(s, sep)[1..] == rest;
      assert s == [] + [sep] + s[1..];
    } else {
      SplitJoin(s[1..], sep);
      var rest := Split(s[1..], sep);
      var pieces := Split(s, sep);
      assert pieces == [[s[0]] + rest[0]] + rest[1..];
      if |rest| == 1 {
        assert s == [s[0]] + s[1..];
      } else {
        assert pieces[1..] == rest[1..];
        assert Join(rest, sep) == rest[0] + [sep] + Join(rest[1..], sep);
        assert s == [s[0]] + s[1..];
      }
      forall i | 0 <= i < |pieces| ensures sep !in pieces[i] {
        if i > 0 { assert pieces[i] == rest[i]; }
      }
    }
  }

  /** A text that starts with a separator splits into an empty piece followed by the rest's pieces. */
  lemma SplitAfterSeparator(prefix: string, rest: string, sep: char)
    requires sep !in prefix
    ensures Split(prefix + [sep] + rest, sep) == [prefix] + Split(rest, sep)
    decreases |prefix|
  {
    if |prefix| == 0 {
      assert prefix + [sep] + rest == [sep] + rest;
      assert ([sep] + rest)[1..] == rest;
    } else {
      var s := prefix + [sep] + rest;
      assert s[1..] == prefix[1..] + [sep] + rest;
      SplitAfterSeparator(prefix[1..], rest, sep);
      assert [prefix[0]] + prefix[1..] == prefix;
    }
  }

  /**
   * `authenticate` up to the token check: the token is the second
   * space-separated piece of a header starting with "Bearer ".
   * Token verification and the user lookup are not part of this model.
   */
  function ExtractBearerToken(header: Option<string>): (r: Result<string, Thrown>)
    ensures r.Failure? ==> r.error == ApiError(LoginRequired, 401)
    ensures r.Success? <==>
      header.Some? && StartsWith(header.value, BearerPrefix) &&
      |header.value| > |BearerPrefix| && header.value[|BearerPrefix|] != ' '
    ensures r.Success? ==>
      var h, t := header.value, r.value;
      t != "" && ' ' !in t && |BearerPrefix| + |t| <= |h| &&
      h[..|BearerPrefix| + |t|] == BearerPrefix + t &&
      (|h| == |BearerPrefix| + |t| || h[|BearerPrefix| + |t|] == ' ')
  {
    if header.None? || !StartsWith(header.value, BearerPrefix) then Failure(ApiError(LoginRequired, 401))
    else
      var h := header.value;
      var after := h[|BearerPrefix|..];
      assert h == "Bearer" + [' '] + after;
      SplitAfterSeparator("Bearer", after, ' ');
      var token := Split(h, ' ')[1];
      assert token == Split(after, ' ')[0];
      TokenIsFirstPiece(after);
      if token == "" then Failure(ApiError(LoginRequired, 401))
      else Success(token)
  }

  /** The first piece is the longest separator-free prefix. */
  lemma TokenIsFirstPiece(s: string)
    ensures var t := Split(s, ' ')[0];
      |t| <= |s| && s[..|t|] == t && ' ' !in t && (|t| == |s| || s[|t|] == ' ')
    ensures Split(s, ' ')[0] == "" <==> (|s| == 0 || s[0] == ' ')
    decreases |s|
  {
    if |s| > 0 && s[0] != ' ' {
      TokenIsFirstPiece(s[1..]);
    }
  }

  /** The authenticated user as `authorize` sees it: the names of its roles. */
  datatype AuthUser = AuthUser(roleNames: seq<string>)

  /** `allowedRoles.some(role => userRoles.includes(role))`: a scan of the allowed list. */
  function SomeRoleHeld(allowedRoles: seq<string>, userRoles: seq<string>): (r: bool)
    ensures r <==> exists role :: role in allowedRoles && role in userRoles
    decreases |allowedRoles|
  {
    if allowedRoles == [] then false
    else if allowedRoles[0] in userRoles then true
    else
      var rest := SomeRoleHeld(allowedRoles[1..], userRoles);
      assert forall role :: role in allowedRoles <==> role == allowedRoles[0] || role in allowedRoles[1..];
      rest
  }

  /** `authorize(...allowedRoles)`: 401 without a user, 403 unless some allowed role is held. */
  function Authorize(user: Option<AuthUser>, allowedRoles: seq<string>): (r: Result<(), Thrown>)
    ensures user.None? ==> r == Failure(ApiError(LoginRequired, 401))
    ensures user.Some? ==>
      (r.Success? <==> exists role :: role in allowedRoles && role in user.value.roleNames)
    ensures user.Some? && r.Failure? ==> r.error == ApiError(NotEnoughRights, 403)
  {
    if user.None? then Failure(ApiError(LoginRequired, 401))
    else if SomeRoleHeld(allowedRoles, user.value.roleNames) then Success(())
    else Failure(ApiError(NotEnoughRights, 403))
  }

  /** The order (and repetition) of either list does not matter, only which names occur. */
  lemma AuthorizeIgnoresOrder(names1: seq<string>, names2: seq<string>, allowed1: seq<string>, allowed2: seq<string>)
    requires forall n :: n in names1 <==> n in names2
    requires forall a :: a in allowed1 <==> a in allowed2
    ensures Authorize(Some(AuthUser(names1)), allowed1) == Authorize(Some(AuthUser(names2)), allowed2)
  {
    if exists role :: role in allowed1 && role in names1 {
      var role :| role in allowed1 && role in names1;
      assert role in allowed2 && role in names2;
    }
  }

  /** No allowed role means every authenticated user is refused. */
  lemma AuthorizeEmptyAllowed(user: AuthUser)
    ensures Authorize(Some(user), []) == Failure(ApiError(NotEnoughRights, 403))
  {
  }
}
