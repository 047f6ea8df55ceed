/**
 * Stored refresh tokens: each remembers who it was issued to, from which
 * client, until when, and whether it has been revoked.
 */
module RefreshTokens {
  import opened Common

  /** The stored columns of one token, as a value. */
  datatype TokenRow = TokenRow(
    token: string,
    userEmail: string,
    userAgent: string,
    clientIp: string,
    expiryDate: Instant,
    revokedDate: Option<Instant>)
  {
    predicate IsExpired(now: Instant)
    {
      now > expiryDate
    }

    predicate IsRevoked()
    {
      revokedDate.Some?
    }
  }

  class RefreshToken {
    const token: string
    /** The owning user, by its unique e-mail address. */
    const userEmail: string
    const userAgent: string
    const clientIp: string
    const expiryDate: Instant
    var revokedDate: Option<Instant>

    /** A new token starts unrevoked: the constructor leaves revokedDate unset. */
    constructor(token: string, userEmail: string, userAgent: string, clientIp: string, expiryDate: Instant)
      ensures Row() == TokenRow(token, userEmail, userAgent, clientIp, expiryDate, None)
      ensures !IsRevoked()
    {
      this.token := token;
      this.userEmail := userEmail;
      this.userAgent := userAgent;
      this.clientIp := clientIp;
      this.expiryDate := expiryDate;
      this.revokedDate := None;
    }

    function Row(): TokenRow
      reads this
    {
      TokenRow(token, userEmail, userAgent, clientIp, expiryDate, revokedDate)
    }

    /** isExpired: `now` is strictly after the expiry date. */
    predicate IsExpired(now: Instant)
    {
      now > expiryDate
    }

    predicate IsRevoked()
      reads this
    {
      revokedDate.Some?
    }

    /** revoke: stamp the revocation time; nothing else about the token changes. */
    method Revoke(now: Instant)
      modifies this`revokedDate
      ensures Row() == old(Row()).(revokedDate := Some(now))
      ensures IsRevoked()
    {
      revokedDate := Some(now);
    }
  }

  /** The rows of a list of tokens, in order. */
  function RowsOf(ts: seq<RefreshToken>): (r: seq<TokenRow>)
    reads ts
    ensures |r| == |ts|
    ensures forall i :: 0 <= i < |ts| ==> r[i] == ts[i].Row()
  {
    if |ts| == 0 then [] else RowsOf(ts[..|ts| - 1]) + [ts[|ts| - 1].Row()]
  }

  /** findAllValidTokensByUser: the user's tokens whose expiry lies strictly after `now`
    * and that carry no revocation date. */
  predicate ValidAt(row: TokenRow, email: string, now: Instant)
  {
    row.userEmail == email && row.expiryDate > now && row.revokedDate.None?
  }

  /** revokeAllUserTokens on the stored rows: every token the query returns is revoked at `now`. */
  function RevokeAll(rows: seq<TokenRow>, email: string, now: Instant): (r: seq<TokenRow>)
    ensures |r| == |rows|
  {
    if |rows| == 0 then []
    else
      var last := rows[|rows| - 1];
      RevokeAll(rows[..|rows| - 1], email, now) + [if ValidAt(last, email, now) then last.(revokedDate := Some(now)) else last]
  }

  /** Exactly the user's valid tokens are revoked, at `now`; every other row is untouched. */
  lemma {:induction false} RevokeAllEffect(rows: seq<TokenRow>, email: string, now: Instant)
    ensures forall i :: 0 <= i < |rows| && ValidAt(rows[i], email, now) ==>
      RevokeAll(rows, email, now)[i] == rows[i].(revokedDate := Some(now))
    ensures forall i :: 0 <= i < |rows| && !ValidAt(rows[i], email, now) ==> RevokeAll(rows, email, now)[i] == rows[i]
  {
    if |rows| > 0 {
      RevokeAllEffect(rows[..|rows| - 1], email, now);
    }
  }

  /** Afterwards the user has no valid token left, and a second revocation changes nothing. */
  lemma RevokeAllLeavesNoneValid(rows: seq<TokenRow>, email: string, now: Instant)
    ensures forall i :: 0 <= i < |rows| ==> !ValidAt(RevokeAll(rows, email, now)[i], email, now)
    ensures RevokeAll(RevokeAll(rows, email, now), email, now) == RevokeAll(rows, email, now)
  {
    var once := RevokeAll(rows, email, now);
    RevokeAllEffect(rows, email, now);
    RevokeAllEffect(once, email, now);
  }

  /** The refresh-token repository: one object per stored token. */
  class TokenRepository {
    var tokens: seq<RefreshToken>

    /** Each stored token is a separate object. */
    ghost predicate Valid()
      reads this
    {
      forall i, j :: 0 <= i < j < |tokens| ==> tokens[i] != tokens[j]
    }

    function Rows(): (r: seq<TokenRow>)
      reads this, tokens
      ensures r == RowsOf(tokens)
    {
      RowsOf(tokens)
    }

    constructor()
      ensures tokens == [] && Valid()
    {
      tokens := [];
    }

    /** The query: the stored tokens valid for `email` at `now`, in storage order. */
    function ValidTokens(email: string, now: Instant): (r: seq<RefreshToken>)
      reads this, tokens
      ensures forall t :: t in r ==> t in tokens
      ensures forall k :: 0 <= k < |tokens| ==> (tokens[k] in r <==> ValidAt(tokens[k].Row(), email, now))
    {
      ValidAmong(tokens, email, now)
    }

    /** Revoke the stored token at position `i` and save it. */
    method RevokeAt(i: nat, now: Instant)
      requires Valid() && i < |tokens|
      modifies tokens[i]
      ensures tokens == old(tokens)
      ensures Rows() == old(Rows())[i := old(Rows())[i].(revokedDate := Some(now))]
    {
      ghost var before := Rows();
      tokens[i].Revoke(now);
      assert forall k :: 0 <= k < |tokens| && k != i ==> tokens[k].Row() == before[k];
    }

    /** revokeAllUserTokens: fetch the valid tokens, then revoke and save each one. */
    method RevokeAllUserTokens(email: string, now: Instant)
      requires Valid()
      modifies tokens
      ensures Rows() == RevokeAll(old(Rows()), email, now)
    {
      ghost var before := Rows();
      var validTokens := ValidTokens(email, now);
      var i := 0;
      while i < |validTokens|
        invariant 0 <= i <= |validTokens|
        invariant tokens == old(tokens)
        invariant forall t :: t in validTokens ==> t in tokens
        invariant forall k :: 0 <= k < |tokens| ==> (tokens[k] in validTokens <==> ValidAt(before[k], email, now))
        invariant forall k :: 0 <= k < |tokens| ==>
          tokens[k].Row() == if tokens[k] in validTokens[..i] then before[k].(revokedDate := Some(now)) else before[k]
      {
        assert validTokens[i] in old(tokens);
        validTokens[i].Revoke(now);
        i := i + 1;
      }
      RevokeAllEffect(before, email, now);
      assert validTokens[..i] == validTokens;
    }

    /** findByToken: the first stored token with that string. */
    function FindToken(token: string): (r: Option<nat>)
      reads this, tokens
      ensures r == Find(Rows(), token)
    {
      FindRow(tokens, token)
    }

    /** Save a newly created token. */
    method Add(t: RefreshToken)
      requires Valid() && t !in tokens
      modifies this
      ensures Valid() && tokens == old(tokens) + [t]
      ensures Rows() == old(Rows()) + [t.Row()]
    {
      tokens := tokens + [t];
    }
  }

  function ValidAmong(ts: seq<RefreshToken>, email: string, now: Instant): (r: seq<RefreshToken>)
    reads ts
    ensures forall t :: t in r ==> t in ts
    ensures forall k :: 0 <= k < |ts| ==> (ts[k] in r <==> ValidAt(ts[k].Row(), email, now))
  {
    if |ts| == 0 then []
    else
      var init := ValidAmong(ts[..|ts| - 1], email, now);
      var last := ts[|ts| - 1];
      if ValidAt(last.Row(), email, now) then init + [last] else init
  }

  /** The position of the first row holding `token`. */
  function Find(rows: seq<TokenRow>, token: string): (r: Option<nat>)
    ensures r.Some? ==> (r.value < |rows| && rows[r.value].token == token
      && forall j :: 0 <= j < r.value ==> rows[j].token != token)
    ensures r.None? ==> forall j :: 0 <= j < |rows| ==> rows[j].token != token
  {
    if |rows| == 0 then None
    else
      match Find(rows[..|rows| - 1], token)
      case Some(i) => Some(i)
      case None => if rows[|rows| - 1].token == token then Some(|rows| - 1) else None
  }

  /** The first row carrying `token` is the one Find returns. */
  lemma FindFirst(rows: seq<TokenRow>, token: string, i: nat)
    requires i < |rows| && rows[i].token == token
    requires forall j :: 0 <= j < i ==> rows[j].token != token
    ensures Find(rows, token) == Some(i)
  {
    var r := Find(rows, token);
    assert r != None by {
      assert rows[i].token == token;
    }
  }

  function FindRow(ts: seq<RefreshToken>, token: string): (r: Option<nat>)
    reads ts
    ensures r == Find(RowsOf(ts), token)
  {
    if |ts| == 0 then None
    else
      assert RowsOf(ts)[..|ts| - 1] == RowsOf(ts[..|ts| - 1]);
      match FindRow(ts[..|ts| - 1], token)
      case Some(i) => Some(i)
      case None => if ts[|ts| - 1].token == token then Some(|ts| - 1) else None
  }
}
