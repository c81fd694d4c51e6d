/**
 * The authorization check every handler runs first: internal requests pass,
 * everything else needs a token row matching the `Authorization` header.
 */
module Auth {
  import opened Wrappers
  import opened Text
  import opened Models
  import opened Shapes

  /** The two request headers the check reads. */
  datatype Headers = Headers(internal: Option<string>, authorization: Option<string>)

  const BearerPrefix := "Bearer "
  const HeaderMissing := "Authorization header missing"
  const InvalidToken := "Invalid or expired token"

  /** A header starting with the bearer prefix splits at its seventh character. */
  lemma BearerSplit(header: string)
    requires StartsWith(header, BearerPrefix)
    ensures |Split(header, ' ')| >= 2
    ensures Split(header, ' ')[1] == Split(header[|BearerPrefix|..], ' ')[0]
  {
    assert header[..7] == BearerPrefix;
    assert header[6] == ' ';
    assert forall k :: 0 <= k < 6 ==> header[k] == BearerPrefix[k] && header[k] != ' ';
    assert IndexOf(header, ' ') == Some(6);
    SplitRest(header, ' ', 6);
  }

  /**
   * The token a header carries: after the bearer prefix, the text up to the
   * next space (the second space-separated field); otherwise the whole header.
   */
  function ExtractToken(header: string): (token: string)
    ensures StartsWith(header, BearerPrefix) ==>
      var rest := header[|BearerPrefix|..];
      && StartsWith(rest, token)
      && ' ' !in token
      && (|token| == |rest| || rest[|token|] == ' ')
    ensures !StartsWith(header, BearerPrefix) ==> token == header
  {
    if StartsWith(header, BearerPrefix) then
      BearerSplit(header);
      SplitFirst(header[|BearerPrefix|..], ' ');
      Split(header, ' ')[1]
    else header
  }

  /** A space-free prefix ending at a space or at the end is determined uniquely. */
  lemma FieldDetermined(text: string, token: string, t: string)
    requires ' ' !in t && StartsWith(text, t) && (|t| == |text| || text[|t|] == ' ')
    requires ' ' !in token && StartsWith(text, token) && (|token| == |text| || text[|token|] == ' ')
    ensures token == t
  {
  }

  /**
   * `Bearer <t>` yields `t`, and so does `Bearer <t> <rest>`: only the second
   * field is kept. With `t` empty this is a header with two spaces after `Bearer`.
   */
  lemma BearerToken(t: string, rest: string)
    requires ' ' !in t
    ensures ExtractToken(BearerPrefix + t) == t
    ensures ExtractToken(BearerPrefix + t + " " + rest) == t
  {
    var h1 := BearerPrefix + t;
    assert h1[..|BearerPrefix|] == BearerPrefix;
    assert h1[|BearerPrefix|..] == t;
    FieldDetermined(t, ExtractToken(h1), t);
    var h2 := BearerPrefix + t + " " + rest;
    assert h2[..|BearerPrefix|] == BearerPrefix;
    var text := h2[|BearerPrefix|..];
    assert text == t + " " + rest;
    assert text[..|t|] == t;
    FieldDetermined(text, ExtractToken(h2), t);
  }

  /** Some token row carries exactly this string. */
  predicate HasToken(tokens: seq<Token>, t: string) {
    exists i :: 0 <= i < |tokens| && tokens[i].token == t
  }

  /** No two token rows carry the same string (the column is not declared unique). */
  predicate DistinctTokens(tokens: seq<Token>) {
    forall i, j :: 0 <= i < j < |tokens| ==> tokens[i].token != tokens[j].token
  }

  /** How many rows `Token.objects.get(token=t)` finds. */
  function CountToken(tokens: seq<Token>, t: string): (n: nat)
    ensures n <= |tokens|
    ensures n == 0 <==> !HasToken(tokens, t)
    ensures DistinctTokens(tokens) ==> n <= 1
    decreases |tokens|
  {
    if tokens == [] then 0
    else
      var rest := CountToken(tokens[1..], t);
      assert HasToken(tokens, t) <==> tokens[0].token == t || HasToken(tokens[1..], t) by {
        if HasToken(tokens, t) && tokens[0].token != t {
          var i :| 0 <= i < |tokens| && tokens[i].token == t;
          assert tokens[1..][i - 1].token == t;
        }
        if HasToken(tokens[1..], t) {
          var i :| 0 <= i < |tokens[1..]| && tokens[1..][i].token == t;
          assert tokens[i + 1].token == t;
        }
      }
      (if tokens[0].token == t then 1 else 0) + rest
  }

  /**
   * The middleware: `None` lets the request through, otherwise the response
   * to send. Two rows with the token's string make `objects.get` raise.
   */
  function Middleware(h: Headers, tokens: seq<Token>): (denial: Option<Response>)
    ensures Given(h.internal) ==> denial.None?
    ensures !Given(h.internal) && !Given(h.authorization) ==>
      denial == Some(Error(Unauthorized, HeaderMissing))
    ensures !Given(h.internal) && Given(h.authorization) ==>
      (denial == Some(Error(Unauthorized, InvalidToken)) <==>
        !HasToken(tokens, ExtractToken(h.authorization.value)))
    ensures denial.None? ==>
      Given(h.internal) || (Given(h.authorization) && HasToken(tokens, ExtractToken(h.authorization.value)))
    ensures denial.Some? ==>
      denial.value.ServerError? || (denial.value.Error? && denial.value.status == Unauthorized)
  {
    if Given(h.internal) then None
    else if !Given(h.authorization) then Some(Error(Unauthorized, HeaderMissing))
    else
      var n := CountToken(tokens, ExtractToken(h.authorization.value));
      if n == 0 then Some(Error(Unauthorized, InvalidToken))
      else if n == 1 then None
      else Some(ServerError)
  }

  /** No two rows hold the string `t`; other strings may repeat. */
  predicate HeldAtMostOnce(tokens: seq<Token>, t: string) {
    forall i, j :: 0 <= i < j < |tokens| && tokens[i].token == t ==> tokens[j].token != t
  }

  /** A string held by at most one row is counted at most once. */
  lemma {:induction false} CountAtMostOne(tokens: seq<Token>, t: string)
    requires HeldAtMostOnce(tokens, t)
    ensures CountToken(tokens, t) <= 1
    decreases |tokens|
  {
    if tokens != [] {
      var rest := tokens[1..];
      forall i, j | 0 <= i < j < |rest| && rest[i].token == t
        ensures rest[j].token != t
      {
        assert rest[i] == tokens[i + 1] && rest[j] == tokens[j + 1];
      }
      CountAtMostOne(rest, t);
      if tokens[0].token == t {
        forall k | 0 <= k < |rest| ensures rest[k].token != t {
          assert rest[k] == tokens[k + 1];
        }
      }
    }
  }

  /**
   * When no two rows hold the request's token, a request passes iff it is
   * internal or its token is a row. Other strings in the table may repeat.
   */
  lemma AdmittedIffTokenRow(h: Headers, tokens: seq<Token>)
    requires Given(h.authorization) ==> HeldAtMostOnce(tokens, ExtractToken(h.authorization.value))
    ensures Middleware(h, tokens).None? <==>
      Given(h.internal) || (Given(h.authorization) && HasToken(tokens, ExtractToken(h.authorization.value)))
  {
    if Given(h.authorization) {
      CountAtMostOne(tokens, ExtractToken(h.authorization.value));
    }
  }

  /** Two rows with the same string are counted twice. */
  lemma {:induction false} CountTwo(tokens: seq<Token>, t: string, i: nat, j: nat)
    requires i < j < |tokens| && tokens[i].token == t && tokens[j].token == t
    ensures CountToken(tokens, t) >= 2
    decreases |tokens|
  {
    if i > 0 {
      CountTwo(tokens[1..], t, i - 1, j - 1);
    } else {
      assert tokens[1..][j - 1].token == t;
      assert HasToken(tokens[1..], t);
    }
  }

  /** A duplicated token string locks its holders out with a server error. */
  lemma DuplicateTokenRaises(h: Headers, tokens: seq<Token>, i: nat, j: nat)
    requires !Given(h.internal) && Given(h.authorization)
    requires i < j < |tokens|
    requires tokens[i].token == ExtractToken(h.authorization.value)
    requires tokens[j].token == ExtractToken(h.authorization.value)
    ensures Middleware(h, tokens) == Some(ServerError)
  {
    CountTwo(tokens, ExtractToken(h.authorization.value), i, j);
  }

  /** A token longer than the column allows never matches a stored row. */
  lemma OverlongTokenRejected(h: Headers, tokens: seq<Token>)
    requires forall i :: 0 <= i < |tokens| ==> ValidToken(tokens[i])
    requires !Given(h.internal) && Given(h.authorization)
    requires |ExtractToken(h.authorization.value)| > MaxChars
    ensures Middleware(h, tokens) == Some(Error(Unauthorized, InvalidToken))
  {
  }
}
