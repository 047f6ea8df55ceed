/**
 * Sign-up, sign-in, refresh-token rotation and sign-out: the input formats a
 * new account must meet, the account-status gate, and the rule that every
 * sign-in or refresh retires the user's other live refresh tokens.
 */
module Authentication {
  import opened Common
  import opened ErrorCodes
  import opened Domain
  import opened RefreshTokens

  // ------------------------------------------------------------------
  // Input formats

  predicate IsAsciiLetter(c: char)
  {
    'A' <= c <= 'Z' || 'a' <= c <= 'z'
  }

  /** The characters of `[A-Za-z0-9+_.-]`. */
  predicate IsEmailLocalChar(c: char)
  {
    IsAsciiLetter(c) || IsAsciiDigit(c) || c == '+' || c == '_' || c == '.' || c == '-'
  }

  /** The characters a regex `.` does not match in Java: \n, \r, U+0085, U+2028 and U+2029. */
  predicate IsLineTerminator(c: char)
  {
    c == '\n' || c == '\r' || c == '\U{0085}' || c == '\U{2028}' || c == '\U{2029}'
  }

  /** isValidEmail, `^[A-Za-z0-9+_.-]+@(.+)$`: a non-empty run of local-part characters,
    * an '@', and at least one further character, none of them a line terminator. */
  predicate IsValidEmail(email: Option<string>)
  {
    email.Some? &&
    var e := email.value;
    exists k :: 0 < k < |e| - 1 && e[k] == '@'
      && (forall i :: 0 <= i < k ==> IsEmailLocalChar(e[i]))
      && (forall i :: k < i < |e| ==> !IsLineTerminator(e[i]))
  }

  /** The '@' the pattern matches is the first one, since the local part cannot hold an '@';
    * the domain part may hold more. */
  lemma EmailSplitsAtFirstAt(e: string, k: nat)
    requires 0 < k < |e| && e[k] == '@' && forall i :: 0 <= i < k ==> IsEmailLocalChar(e[i])
    ensures forall i :: 0 <= i < k ==> e[i] != '@'
  {
  }

  lemma EmailExamples()
    ensures IsValidEmail(Some("rider@example.com"))
    ensures IsValidEmail(Some("a@b@c"))
    ensures !IsValidEmail(Some("@example.com"))
    ensures !IsValidEmail(Some("rider@"))
    ensures !IsValidEmail(None)
  {
    var e := "rider@example.com";
    assert e[5] == '@' && forall i :: 0 <= i < 5 ==> IsEmailLocalChar(e[i]);
    var f := "a@b@c";
    assert f[1] == '@';
    var g := "@example.com";
    assert forall k :: 0 < k < |g| - 1 ==> g[k] != '@';
    var h := "rider@";
    assert forall k :: 0 < k < |h| - 1 ==> h[k] != '@';
  }

  predicate IsPasswordSpecial(c: char)
  {
    c == '@' || c == '$' || c == '!' || c == '%' || c == '*' || c == '#' || c == '?' || c == '&'
  }

  predicate IsPasswordChar(c: char)
  {
    IsAsciiLetter(c) || IsAsciiDigit(c) || IsPasswordSpecial(c)
  }

  /** isValidPassword: at least eight characters from letters, digits and @$!%*#?&, with at
    * least one of each kind. */
  predicate IsValidPassword(password: Option<string>)
  {
    password.Some? &&
    var p := password.value;
    && |p| >= 8
    && (forall i :: 0 <= i < |p| ==> IsPasswordChar(p[i]))
    && (exists i :: 0 <= i < |p| && IsAsciiLetter(p[i]))
    && (exists i :: 0 <= i < |p| && IsAsciiDigit(p[i]))
    && (exists i :: 0 <= i < |p| && IsPasswordSpecial(p[i]))
  }

  lemma PasswordExamples()
    ensures IsValidPassword(Some("secret12!"))
    ensures !IsValidPassword(Some("secret123"))
    ensures !IsValidPassword(Some("sh0rt!"))
  {
    var p := "secret12!";
    assert IsAsciiLetter(p[0]) && IsAsciiDigit(p[6]) && IsPasswordSpecial(p[8]);
    var q := "secret123";
    assert forall i :: 0 <= i < |q| ==> !IsPasswordSpecial(q[i]);
  }

  /** isValidPhoneNumber, `^\d{2,3}-\d{3,4}-\d{4}$`. */
  predicate IsValidPhoneNumber(phone: Option<string>)
  {
    phone.Some? &&
    var s := phone.value;
    exists i, j :: 2 <= i <= 3 && i + 4 <= j <= i + 5 && j + 5 == |s| && s[i] == '-' && s[j] == '-'
      && AllAsciiDigits(s[..i]) && AllAsciiDigits(s[i + 1..j]) && AllAsciiDigits(s[j + 1..])
  }

  /** A valid number is 11 to 13 characters long with exactly two dashes, the second
    * one five from the end. */
  lemma PhoneShape(s: string)
    requires IsValidPhoneNumber(Some(s))
    ensures 11 <= |s| <= 13 && s[|s| - 5] == '-'
    ensures forall k :: 0 <= k < |s| && s[k] == '-' ==> k == |s| - 5 || k == 2 || k == 3
  {
    var i, j :| 2 <= i <= 3 && i + 4 <= j <= i + 5 && j + 5 == |s| && s[i] == '-' && s[j] == '-'
      && AllAsciiDigits(s[..i]) && AllAsciiDigits(s[i + 1..j]) && AllAsciiDigits(s[j + 1..]);
    forall k | 0 <= k < |s| && k != i && k != j
      ensures IsAsciiDigit(s[k])
    {
      if k < i {
        assert s[..i][k] == s[k];
      } else if k < j {
        assert s[i + 1..j][k - i - 1] == s[k];
      } else {
        assert s[j + 1..][k - j - 1] == s[k];
      }
    }
  }

  lemma PhoneExamples()
    ensures IsValidPhoneNumber(Some("010-1234-5678"))
    ensures IsValidPhoneNumber(Some("02-123-4567"))
    ensures !IsValidPhoneNumber(Some("010-12345678"))
  {
    var a := "010-1234-5678";
    assert a[3] == '-' && a[8] == '-' && a[..3] == "010" && a[4..8] == "1234" && a[9..] == "5678";
    var b := "02-123-4567";
    assert b[2] == '-' && b[6] == '-' && b[..2] == "02" && b[3..6] == "123" && b[7..] == "4567";
    var c := "010-12345678";
    assert c[|c| - 5] != '-';
    if IsValidPhoneNumber(Some(c)) {
      PhoneShape(c);
    }
  }

  // ------------------------------------------------------------------
  // Registration

  datatype RegisterRequest = RegisterRequest(email: Option<string>, password: Option<string>, name: string, phone: Option<string>)

  /** validateRegistrationInput: e-mail, then password, then phone format. */
  function RegistrationInputError(request: RegisterRequest): Option<ErrorCode>
  {
    if !IsValidEmail(request.email) then Some(InvalidEmailFormat)
    else if !IsValidPassword(request.password) then Some(InvalidPasswordFormat)
    else if !IsValidPhoneNumber(request.phone) then Some(InvalidPhoneFormat)
    else None
  }

  /** register: valid input, an unused e-mail, and the USER role present; the new account is
    * ACTIVE and stores the encoder's output, never the plain password. */
  function Register(users: map<string, User>, request: RegisterRequest, roleExists: bool, encodedPassword: string)
    : (r: (Result<()>, map<string, User>))
    ensures r.0.Err? ==> r.1 == users
  {
    match RegistrationInputError(request)
    case Some(e) => (Err(e), users)
    case None =>
      var email := request.email.value;
      if email in users then (Err(DuplicateEmail), users)
      else if !roleExists then (Err(RoleNotFound), users)
      else (Ok(()), users[email := User(email, encodedPassword, request.name, request.phone.value, Active)])
  }

  lemma RegisterEffect(users: map<string, User>, request: RegisterRequest, roleExists: bool, encodedPassword: string)
    ensures var (r, users') := Register(users, request, roleExists, encodedPassword);
      && (!IsValidEmail(request.email) ==> r == Err(InvalidEmailFormat))
      && (IsValidEmail(request.email) && !IsValidPassword(request.password) ==> r == Err(InvalidPasswordFormat))
      && ((IsValidEmail(request.email) && IsValidPassword(request.password) && !IsValidPhoneNumber(request.phone))
            ==> r == Err(InvalidPhoneFormat))
      && ((RegistrationInputError(request).None? && request.email.value in users) ==> r == Err(DuplicateEmail))
      && (r.Ok? <==> (IsValidEmail(request.email) && IsValidPassword(request.password) && IsValidPhoneNumber(request.phone)
                      && request.email.value !in users && roleExists))
      && (r.Ok? ==>
            var email := request.email.value;
            && users'.Keys == users.Keys + {email}
            && users'[email] == User(email, encodedPassword, request.name, request.phone.value, Active)
            && StatusError(users'[email].status).None?
            && forall e :: e in users ==> users'[e] == users[e])
  {
  }

  // ------------------------------------------------------------------
  // Sign-in, refresh and sign-out

  /** What the authentication manager concluded from the e-mail and password. */
  datatype AuthenticationOutcome = Authenticated | BadCredentials | AuthenticationError

  /** The refresh token the token provider signs for this call, with its expiry. */
  datatype IssuedToken = IssuedToken(token: string, expiryDate: Instant)

  /** The rows after retiring the user's live tokens and saving the newly issued one. */
  function Rotate(rows: seq<TokenRow>, email: string, userAgent: string, clientIp: string,
                  now: Instant, issued: IssuedToken): (r: seq<TokenRow>)
    ensures |r| == |rows| + 1 && r[..|rows|] == RevokeAll(rows, email, now)
    ensures r[|rows|] == TokenRow(issued.token, email, userAgent, clientIp, issued.expiryDate, None)
  {
    RevokeAll(rows, email, now) + [TokenRow(issued.token, email, userAgent, clientIp, issued.expiryDate, None)]
  }

  /** After a rotation the user's only token that is still live is the new one. */
  lemma RotateLeavesOnlyNewToken(rows: seq<TokenRow>, email: string, userAgent: string, clientIp: string,
                                 now: Instant, issued: IssuedToken)
    ensures var r := Rotate(rows, email, userAgent, clientIp, now, issued);
      && (forall i :: 0 <= i < |rows| ==> !ValidAt(r[i], email, now))
      && (ValidAt(r[|rows|], email, now) <==> issued.expiryDate > now)
      && (forall i :: 0 <= i < |rows| && rows[i].userEmail != email ==> r[i] == rows[i])
  {
    RevokeAllLeavesNoneValid(rows, email, now);
    RevokeAllEffect(rows, email, now);
  }

  /** login: e-mail format, then the authentication manager's verdict, then the account. */
  function Login(users: map<string, User>, rows: seq<TokenRow>, email: Option<string>, auth: AuthenticationOutcome,
                 userAgent: string, clientIp: string, now: Instant, issued: IssuedToken)
    : (r: (Result<string>, seq<TokenRow>))
    ensures r.0.Err? ==> r.1 == rows
  {
    if !IsValidEmail(email) then (Err(InvalidEmailFormat), rows)
    else if auth == BadCredentials then (Err(InvalidPassword), rows)
    else if auth == AuthenticationError then (Err(AuthenticationFailed), rows)
    else if email.value !in users then (Err(UserNotFound), rows)
    else if StatusError(users[email.value].status).Some? then (Err(StatusError(users[email.value].status).value), rows)
    else (Ok(issued.token), Rotate(rows, email.value, userAgent, clientIp, now, issued))
  }

  lemma LoginEffect(users: map<string, User>, rows: seq<TokenRow>, email: Option<string>, auth: AuthenticationOutcome,
                    userAgent: string, clientIp: string, now: Instant, issued: IssuedToken)
    ensures var (r, rows') := Login(users, rows, email, auth, userAgent, clientIp, now, issued);
      && (!IsValidEmail(email) ==> r == Err(InvalidEmailFormat))
      && (IsValidEmail(email) && auth == BadCredentials ==> r == Err(InvalidPassword))
      && (IsValidEmail(email) && auth == AuthenticationError ==> r == Err(AuthenticationFailed))
      && (r.Ok? <==> IsValidEmail(email) && auth == Authenticated && email.value in users
                     && users[email.value].status == Active)
      && ((IsValidEmail(email) && auth == Authenticated && email.value in users && users[email.value].status != Active)
            ==> r == Err(StatusError(users[email.value].status).value))
      && (r.Ok? ==> r.value == issued.token && rows' == Rotate(rows, email.value, userAgent, clientIp, now, issued))
  {
  }

  /** validateRefreshToken: expiry is checked before revocation. */
  function StoredTokenError(row: TokenRow, now: Instant): Option<ErrorCode>
  {
    if row.IsExpired(now) then Some(ExpiredToken)
    else if row.IsRevoked() then Some(InvalidRefreshToken)
    else None
  }

  /** refreshToken, with the revocation that validateClientInfo makes before it throws
    * kept (see the finding on the rolled-back revocation, and RefreshRolledBack for the
    * behaviour as written). */
  function Refresh(users: map<string, User>, rows: seq<TokenRow>, presented: string, signatureValid: bool,
                   userAgent: string, clientIp: string, now: Instant, issued: IssuedToken)
    : (r: (Result<string>, seq<TokenRow>))
    ensures |r.1| >= |rows|
  {
    if !signatureValid then (Err(InvalidRefreshToken), rows)
    else
      match Find(rows, presented)
      case None => (Err(InvalidRefreshToken), rows)
      case Some(i) =>
        var row := rows[i];
        if StoredTokenError(row, now).Some? then (Err(StoredTokenError(row, now).value), rows)
        else if row.userAgent != userAgent || row.clientIp != clientIp then
          (Err(SuspiciousTokenReuse), rows[i := row.(revokedDate := Some(now))])
        else if row.userEmail !in users then (Err(TokenRefreshFailed), rows)
        else if StatusError(users[row.userEmail].status).Some? then
          (Err(StatusError(users[row.userEmail].status).value), rows)
        else (Ok(issued.token), Rotate(rows, row.userEmail, userAgent, clientIp, now, issued))
  }

  /** The order of the refresh checks, and the rotation a successful refresh performs, for
    * the corrected Refresh; the verdicts are those of the method as written (RefreshRolledBack). */
  lemma RefreshEffect(users: map<string, User>, rows: seq<TokenRow>, presented: string, signatureValid: bool,
                      userAgent: string, clientIp: string, now: Instant, issued: IssuedToken)
    ensures var (r, rows') := Refresh(users, rows, presented, signatureValid, userAgent, clientIp, now, issued);
      && (!signatureValid ==> r == Err(InvalidRefreshToken) && rows' == rows)
      && (Find(rows, presented).None? ==> r == Err(InvalidRefreshToken) && rows' == rows)
      && (signatureValid && Find(rows, presented).Some? ==>
            var i := Find(rows, presented).value;
            var row := rows[i];
            && (now > row.expiryDate ==> r == Err(ExpiredToken) && rows' == rows)
            && (now <= row.expiryDate && row.revokedDate.Some? ==> r == Err(InvalidRefreshToken) && rows' == rows)
            && ((!row.IsExpired(now) && !row.IsRevoked() && (row.userAgent != userAgent || row.clientIp != clientIp))
                  ==> r == Err(SuspiciousTokenReuse) && rows' == rows[i := row.(revokedDate := Some(now))])
            && (r.Ok? <==> !row.IsExpired(now) && !row.IsRevoked() && row.userAgent == userAgent
                           && row.clientIp == clientIp && row.userEmail in users && users[row.userEmail].status == Active)
            && (r.Ok? ==> r.value == issued.token
                          && rows' == Rotate(rows, row.userEmail, userAgent, clientIp, now, issued)))
  {
  }

  /** A successful refresh retires the presented token (when it is used before its expiry
    * instant) together with every other live token of the user. */
  lemma RefreshRevokesPresented(users: map<string, User>, rows: seq<TokenRow>, presented: string, signatureValid: bool,
                                userAgent: string, clientIp: string, now: Instant, issued: IssuedToken)
    requires Refresh(users, rows, presented, signatureValid, userAgent, clientIp, now, issued).0.Ok?
    requires now < rows[Find(rows, presented).value].expiryDate
    ensures var rows' := Refresh(users, rows, presented, signatureValid, userAgent, clientIp, now, issued).1;
      var i := Find(rows, presented).value;
      rows'[i] == rows[i].(revokedDate := Some(now))
      && forall k :: 0 <= k < |rows| ==> !ValidAt(rows'[k], rows[i].userEmail, now)
  {
    var i := Find(rows, presented).value;
    RevokeAllEffect(rows, rows[i].userEmail, now);
    RotateLeavesOnlyNewToken(rows, rows[i].userEmail, userAgent, clientIp, now, issued);
  }

  /** With the reuse revocation kept, a token flagged as reused can never be refreshed
    * again, whoever presents it and from wherever. */
  lemma ReusedTokenStaysDead(users: map<string, User>, rows: seq<TokenRow>, presented: string, signatureValid: bool,
                             userAgent: string, clientIp: string, now: Instant, issued: IssuedToken,
                             userAgent2: string, clientIp2: string, later: Instant, issued2: IssuedToken)
    requires Refresh(users, rows, presented, signatureValid, userAgent, clientIp, now, issued).0 == Err(SuspiciousTokenReuse)
    ensures var rows' := Refresh(users, rows, presented, signatureValid, userAgent, clientIp, now, issued).1;
      Refresh(users, rows', presented, true, userAgent2, clientIp2, later, issued2).0.Err?
  {
    var i := Find(rows, presented).value;
    var rows' := rows[i := rows[i].(revokedDate := Some(now))];
    FindFirst(rows', presented, i);
  }

  /** refreshToken as written: the method is transactional, so the exception thrown after
    * the reuse revocation rolls that revocation back along with everything else. */
  function RefreshRolledBack(users: map<string, User>, rows: seq<TokenRow>, presented: string, signatureValid: bool,
                             userAgent: string, clientIp: string, now: Instant, issued: IssuedToken)
    : (r: (Result<string>, seq<TokenRow>))
    ensures r.0 == Refresh(users, rows, presented, signatureValid, userAgent, clientIp, now, issued).0
    ensures r.0.Err? ==> r.1 == rows
  {
    var (r, rows') := Refresh(users, rows, presented, signatureValid, userAgent, clientIp, now, issued);
    if r.Err? then (r, rows) else (r, rows')
  }

  /** As written, a token flagged as reused from another client is not revoked: presented
    * again from the client it was issued to, it still refreshes. */
  lemma ReuseRevocationIsLost(users: map<string, User>, rows: seq<TokenRow>, presented: string,
                              userAgent: string, clientIp: string, now: Instant, issued: IssuedToken, issued2: IssuedToken)
    requires RefreshRolledBack(users, rows, presented, true, userAgent, clientIp, now, issued).0 == Err(SuspiciousTokenReuse)
    requires var row := rows[Find(rows, presented).value];
      row.userEmail in users && users[row.userEmail].status == Active
    ensures var rows' := RefreshRolledBack(users, rows, presented, true, userAgent, clientIp, now, issued).1;
      var row := rows[Find(rows, presented).value];
      && rows' == rows && !rows'[Find(rows, presented).value].IsRevoked()
      && RefreshRolledBack(users, rows', presented, true, row.userAgent, row.clientIp, now, issued2).0 == Ok(issued2.token)
  {
  }

  /** logout: revoke every live token of the presented token's owner; the presented token
    * itself need not be live. */
  function Logout(rows: seq<TokenRow>, presented: string, now: Instant): (r: (Result<()>, seq<TokenRow>))
    ensures r.0.Err? ==> r.1 == rows
  {
    match Find(rows, presented)
    case None => (Err(InvalidRefreshToken), rows)
    case Some(i) => (Ok(()), RevokeAll(rows, rows[i].userEmail, now))
  }

  lemma LogoutEffect(rows: seq<TokenRow>, presented: string, now: Instant)
    ensures var (r, rows') := Logout(rows, presented, now);
      && (r.Ok? <==> exists j :: 0 <= j < |rows| && rows[j].token == presented)
      && (r.Ok? ==>
            var owner := rows[Find(rows, presented).value].userEmail;
            && |rows'| == |rows|
            && (forall k :: 0 <= k < |rows| ==> !ValidAt(rows'[k], owner, now))
            && (forall k :: 0 <= k < |rows| && rows[k].userEmail != owner ==> rows'[k] == rows[k]))
  {
    if Find(rows, presented).Some? {
      var owner := rows[Find(rows, presented).value].userEmail;
      RevokeAllLeavesNoneValid(rows, owner, now);
      RevokeAllEffect(rows, owner, now);
    }
  }

  // ------------------------------------------------------------------
  // The service methods over the repositories

  method RegisterIn(db: Store, request: RegisterRequest, roleExists: bool, encodedPassword: string) returns (r: Result<()>)
    modifies db
    ensures (r, db.users) == Register(old(db.users), request, roleExists, encodedPassword)
    ensures db.State() == old(db.State()).(users := db.users)
  {
    var inputError := RegistrationInputError(request);
    if inputError.Some? {
      return Err(inputError.value);
    }
    var email := request.email.value;
    if email in db.users {
      return Err(DuplicateEmail);
    }
    if !roleExists {
      return Err(RoleNotFound);
    }
    db.users := db.users[email := User(email, encodedPassword, request.name, request.phone.value, Active)];
    r := Ok(());
  }

  /** Issue a new token for `email` after retiring the user's live ones. */
  method RotateIn(repo: TokenRepository, email: string, userAgent: string, clientIp: string, now: Instant, issued: IssuedToken)
    requires repo.Valid()
    modifies repo, repo.tokens
    ensures repo.Valid()
    ensures repo.Rows() == Rotate(old(repo.Rows()), email, userAgent, clientIp, now, issued)
  {
    ghost var rows := repo.Rows();
    repo.RevokeAllUserTokens(email, now);
    ghost var revoked := repo.Rows();
    assert revoked == RevokeAll(rows, email, now);
    var newToken := new RefreshToken(issued.token, email, userAgent, clientIp, issued.expiryDate);
    ghost var row := newToken.Row();
    repo.Add(newToken);
    assert repo.Rows() == revoked + [row];
  }

  method LoginIn(users: map<string, User>, repo: TokenRepository, email: Option<string>, auth: AuthenticationOutcome,
                 userAgent: string, clientIp: string, now: Instant, issued: IssuedToken)
    returns (r: Result<string>)
    requires repo.Valid()
    modifies repo, repo.tokens
    ensures repo.Valid()
    ensures (r, repo.Rows()) == Login(users, old(repo.Rows()), email, auth, userAgent, clientIp, now, issued)
  {
    if !IsValidEmail(email) {
      return Err(InvalidEmailFormat);
    }
    if auth == BadCredentials {
      return Err(InvalidPassword);
    }
    if auth == AuthenticationError {
      return Err(AuthenticationFailed);
    }
    if email.value !in users {
      return Err(UserNotFound);
    }
    var statusError := StatusError(users[email.value].status);
    if statusError.Some? {
      return Err(statusError.value);
    }
    RotateIn(repo, email.value, userAgent, clientIp, now, issued);
    r := Ok(issued.token);
  }

  /** The corrected refreshToken (Refresh) over the repository: the reuse revocation stays
    * saved after the error, which the method as written rolls back (RefreshRolledBack). */
  method RefreshIn(users: map<string, User>, repo: TokenRepository, presented: string, signatureValid: bool,
                   userAgent: string, clientIp: string, now: Instant, issued: IssuedToken)
    returns (r: Result<string>)
    requires repo.Valid()
    modifies repo, repo.tokens
    ensures repo.Valid()
    ensures (r, repo.Rows()) == Refresh(users, old(repo.Rows()), presented, signatureValid, userAgent, clientIp, now, issued)
  {
    if !signatureValid {
      return Err(InvalidRefreshToken);
    }
    var found := repo.FindToken(presented);
    if found.None? {
      return Err(InvalidRefreshToken);
    }
    var stored := repo.tokens[found.value];
    if stored.IsExpired(now) {
      return Err(ExpiredToken);
    }
    if stored.IsRevoked() {
      return Err(InvalidRefreshToken);
    }
    if stored.userAgent != userAgent || stored.clientIp != clientIp {
      repo.RevokeAt(found.value, now);
      return Err(SuspiciousTokenReuse);
    }
    var email := stored.userEmail;
    if email !in users {
      return Err(TokenRefreshFailed);
    }
    var statusError := StatusError(users[email].status);
    if statusError.Some? {
      return Err(statusError.value);
    }
    RotateIn(repo, email, userAgent, clientIp, now, issued);
    r := Ok(issued.token);
  }

  method LogoutIn(repo: TokenRepository, presented: string, now: Instant) returns (r: Result<()>)
    requires repo.Valid()
    modifies repo.tokens
    ensures repo.Valid()
    ensures (r, repo.Rows()) == Logout(old(repo.Rows()), presented, now)
  {
    var found := repo.FindToken(presented);
    if found.None? {
      return Err(InvalidRefreshToken);
    }
    var owner := repo.tokens[found.value].userEmail;
    repo.RevokeAllUserTokens(owner, now);
    r := Ok(());
  }
}
