/** Multicast push with retry, against a responder that may answer anything, and the pruning that follows. */
module Push {
  import opened Common

  datatype Token = Token(text: string)

  const MAX_RETRIES: nat := 2

  const TRANSIENT_CODES := {
    "messaging/internal-error", "messaging/server-unavailable", "messaging/unknown-error", "messaging/timeout",
    "messaging/quota-exceeded" }

  const INVALID_TOKEN_CODES := {
    "messaging/registration-token-not-registered", "messaging/invalid-registration-token", "messaging/invalid-argument",
    "messaging/unregistered", "messaging/mismatched-credential" }

  /** The SDK's verdict on one token; a failure without a code has code "unknown". */
  datatype Verdict = Delivered | Failed(code: string)

  /** One SDK call: it throws, or answers each token in order. */
  datatype Outcome = Threw | Answered(verdicts: seq<Verdict>)

  /** The SDK: an arbitrary answer to each attempt on each batch. */
  type Responder = (nat, seq<Token>) -> Outcome

  ghost predicate Honest(r: Responder) {
    forall attempt, batch :: r(attempt, batch).Answered? ==> |r(attempt, batch).verdicts| == |batch|
  }

  datatype MulticastResult = MulticastResult(sent: seq<Token>, invalid: seq<Token>, errored: seq<Token>, skipped: bool)

  datatype Fate = Sent | Invalid | Retry | Errored

  /** Which SDK code belongs to which set; the proofs hold for any two sets. */
  datatype Codes = Codes(transient: set<string>, invalid: set<string>)

  const FCM_CODES := Codes(TRANSIENT_CODES, INVALID_TOKEN_CODES)

  /** With the code's own sets no code is in both, so which set is tested first does not matter. */
  lemma CodesAreApart(v: Verdict, last: bool)
    ensures FCM_CODES.transient !! FCM_CODES.invalid
    ensures FateOf(v, last, FCM_CODES) ==
            if v.Failed? && v.code in FCM_CODES.transient then (if last then Errored else Retry)
            else if v.Failed? && v.code in FCM_CODES.invalid then Invalid
            else if v.Delivered? then Sent else Errored
  {
  }

  function FateOf(v: Verdict, last: bool, codes: Codes): Fate {
    if v.Delivered? then Sent
    else if v.code in codes.invalid then Invalid
    else if v.code in codes.transient && !last then Retry
    else Errored
  }

  /** The tokens of a batch with a given fate, in batch order. */
  function With(fate: Fate, batch: seq<Token>, verdicts: seq<Verdict>, last: bool, codes: Codes): seq<Token>
    requires |batch| == |verdicts|
  {
    if batch == [] then []
    else
      var n := |batch| - 1;
      With(fate, batch[..n], verdicts[..n], last, codes)
      + if FateOf(verdicts[n], last, codes) == fate then [batch[n]] else []
  }

  /** What is still pending after a call. */
  ghost function NextBatch(r: Responder, attempt: nat, batch: seq<Token>, codes: Codes): seq<Token>
    requires Honest(r)
  {
    match r(attempt, batch)
    case Threw => if attempt == MAX_RETRIES then [] else batch
    case Answered(verdicts) => With(Retry, batch, verdicts, attempt == MAX_RETRIES, codes)
  }

  /** What a call adds to the list of a final fate. */
  ghost function Adds(fate: Fate, r: Responder, attempt: nat, batch: seq<Token>, codes: Codes): seq<Token>
    requires Honest(r)
  {
    match r(attempt, batch)
    case Threw => if attempt == MAX_RETRIES && fate == Errored then batch else []
    case Answered(verdicts) => With(fate, batch, verdicts, attempt == MAX_RETRIES, codes)
  }

  /** All tokens that end with `fate` when `batch` is pending before call number `attempt`. */
  ghost function Final(fate: Fate, r: Responder, attempt: nat, batch: seq<Token>, codes: Codes): seq<Token>
    requires Honest(r)
    decreases MAX_RETRIES + 1 - attempt
  {
    if attempt > MAX_RETRIES || batch == [] then []
    else Adds(fate, r, attempt, batch, codes) + Final(fate, r, attempt + 1, NextBatch(r, attempt, batch, codes), codes)
  }

  /** The batches handed to the SDK from call number `attempt` on. */
  ghost function Calls(r: Responder, attempt: nat, batch: seq<Token>, codes: Codes): seq<seq<Token>>
    requires Honest(r)
    decreases MAX_RETRIES + 1 - attempt
  {
    if attempt > MAX_RETRIES || batch == [] then []
    else [batch] + Calls(r, attempt + 1, NextBatch(r, attempt, batch, codes), codes)
  }

  /** Multiplicity, counted from the end. */
  function Copies(token: Token, tokens: seq<Token>): nat {
    if tokens == [] then 0
    else
      var n := |tokens| - 1;
      Copies(token, tokens[..n]) + if tokens[n] == token then 1 else 0
  }

  lemma {:induction false} CopiesConcat(token: Token, a: seq<Token>, b: seq<Token>)
    ensures Copies(token, a + b) == Copies(token, a) + Copies(token, b)
  {
    if b == [] {
      assert a + b == a;
    } else {
      var n := |b| - 1;
      assert (a + b)[..|a| + n] == a + b[..n];
      CopiesConcat(token, a, b[..n]);
    }
  }

  lemma {:induction false} CopiesIsMultiplicity(token: Token, tokens: seq<Token>)
    ensures multiset(tokens)[token] == Copies(token, tokens)
  {
    if tokens != [] {
      var n := |tokens| - 1;
      assert tokens == tokens[..n] + [tokens[n]];
      CopiesIsMultiplicity(token, tokens[..n]);
    }
  }

  lemma {:induction false} WithPartition(batch: seq<Token>, verdicts: seq<Verdict>, last: bool, codes: Codes, token: Token)
    requires |batch| == |verdicts|
    ensures Copies(token, With(Sent, batch, verdicts, last, codes)) + Copies(token, With(Invalid, batch, verdicts, last, codes))
         + Copies(token, With(Errored, batch, verdicts, last, codes)) + Copies(token, With(Retry, batch, verdicts, last, codes))
         == Copies(token, batch)
  {
    if batch != [] {
      var n := |batch| - 1;
      WithPartition(batch[..n], verdicts[..n], last, codes, token);
      WithSnoc(Sent, batch, verdicts, last, codes, token);
      WithSnoc(Invalid, batch, verdicts, last, codes, token);
      WithSnoc(Errored, batch, verdicts, last, codes, token);
      WithSnoc(Retry, batch, verdicts, last, codes, token);
    }
  }

  lemma WithSnoc(fate: Fate, batch: seq<Token>, verdicts: seq<Verdict>, last: bool, codes: Codes, token: Token)
    requires |batch| == |verdicts| != 0
    ensures var n := |batch| - 1;
            Copies(token, With(fate, batch, verdicts, last, codes))
            == Copies(token, With(fate, batch[..n], verdicts[..n], last, codes))
             + if FateOf(verdicts[n], last, codes) == fate && batch[n] == token then 1 else 0
  {
    var n := |batch| - 1;
    var hit := if FateOf(verdicts[n], last, codes) == fate then [batch[n]] else [];
    CopiesConcat(token, With(fate, batch[..n], verdicts[..n], last, codes), hit);
  }

  lemma {:induction false} LastLeavesNothing(batch: seq<Token>, verdicts: seq<Verdict>, codes: Codes)
    requires |batch| == |verdicts|
    ensures With(Retry, batch, verdicts, true, codes) == []
  {
    if batch != [] {
      var n := |batch| - 1;
      LastLeavesNothing(batch[..n], verdicts[..n], codes);
    }
  }

  /** A token is in the list of a fate exactly when some entry of the answer gives it that fate. */
  lemma {:induction false} WithMembers(fate: Fate, batch: seq<Token>, verdicts: seq<Verdict>, last: bool, codes: Codes, token: Token)
    requires |batch| == |verdicts|
    ensures token in With(fate, batch, verdicts, last, codes) <==>
            exists i | 0 <= i < |batch| :: batch[i] == token && FateOf(verdicts[i], last, codes) == fate
  {
    if batch != [] {
      var n := |batch| - 1;
      WithMembers(fate, batch[..n], verdicts[..n], last, codes, token);
      forall i | 0 <= i < n ensures batch[..n][i] == batch[i] && verdicts[..n][i] == verdicts[i] {}
    }
  }

  lemma CallPartition(r: Responder, attempt: nat, batch: seq<Token>, codes: Codes, token: Token)
    requires Honest(r)
    ensures Copies(token, Adds(Sent, r, attempt, batch, codes)) + Copies(token, Adds(Invalid, r, attempt, batch, codes))
         + Copies(token, Adds(Errored, r, attempt, batch, codes)) + Copies(token, NextBatch(r, attempt, batch, codes))
         == Copies(token, batch)
    ensures attempt == MAX_RETRIES ==> NextBatch(r, attempt, batch, codes) == []
  {
    match r(attempt, batch)
    case Threw =>
    case Answered(verdicts) =>
      WithPartition(batch, verdicts, attempt == MAX_RETRIES, codes, token);
      if attempt == MAX_RETRIES {
        LastLeavesNothing(batch, verdicts, codes);
      }
  }

  lemma FinalUnfold(fate: Fate, r: Responder, attempt: nat, batch: seq<Token>, codes: Codes, token: Token)
    requires Honest(r) && batch != [] && attempt <= MAX_RETRIES
    ensures Copies(token, Final(fate, r, attempt, batch, codes))
         == Copies(token, Adds(fate, r, attempt, batch, codes))
          + Copies(token, Final(fate, r, attempt + 1, NextBatch(r, attempt, batch, codes), codes))
  {
    CopiesConcat(token, Adds(fate, r, attempt, batch, codes),
                 Final(fate, r, attempt + 1, NextBatch(r, attempt, batch, codes), codes));
  }

  /** How many copies of a token end in some list. */
  ghost function Ended(r: Responder, attempt: nat, batch: seq<Token>, codes: Codes, token: Token): nat
    requires Honest(r)
  {
    Copies(token, Final(Sent, r, attempt, batch, codes)) + Copies(token, Final(Invalid, r, attempt, batch, codes))
    + Copies(token, Final(Errored, r, attempt, batch, codes))
  }

  lemma EndedUnfold(r: Responder, attempt: nat, batch: seq<Token>, codes: Codes, token: Token)
    requires Honest(r) && batch != [] && attempt <= MAX_RETRIES
    ensures Ended(r, attempt, batch, codes, token)
         == Copies(token, batch) - Copies(token, NextBatch(r, attempt, batch, codes))
          + Ended(r, attempt + 1, NextBatch(r, attempt, batch, codes), codes, token)
  {
    CallPartition(r, attempt, batch, codes, token);
    FinalUnfold(Sent, r, attempt, batch, codes, token);
    FinalUnfold(Invalid, r, attempt, batch, codes, token);
    FinalUnfold(Errored, r, attempt, batch, codes, token);
  }

  lemma {:induction false} ConservationAt(r: Responder, attempt: nat, batch: seq<Token>, codes: Codes, token: Token)
    requires Honest(r) && (attempt <= MAX_RETRIES || batch == [])
    ensures Ended(r, attempt, batch, codes, token) == Copies(token, batch)
    decreases MAX_RETRIES + 1 - attempt
  {
    if batch != [] {
      CallPartition(r, attempt, batch, codes, token);
      EndedUnfold(r, attempt, batch, codes, token);
      ConservationAt(r, attempt + 1, NextBatch(r, attempt, batch, codes), codes, token);
    }
  }

  lemma SumOfCopies(a: seq<Token>, b: seq<Token>, c: seq<Token>, all: seq<Token>)
    requires forall token :: Copies(token, a) + Copies(token, b) + Copies(token, c) == Copies(token, all)
    ensures multiset(a) + multiset(b) + multiset(c) == multiset(all)
  {
    forall token ensures (multiset(a) + multiset(b) + multiset(c))[token] == multiset(all)[token] {
      CopiesIsMultiplicity(token, a);
      CopiesIsMultiplicity(token, b);
      CopiesIsMultiplicity(token, c);
      CopiesIsMultiplicity(token, all);
    }
  }

  /** Nothing is lost or counted twice, whatever the SDK answers. */
  lemma Conservation(r: Responder, tokens: seq<Token>, codes: Codes)
    requires Honest(r)
    ensures multiset(Final(Sent, r, 0, tokens, codes)) + multiset(Final(Invalid, r, 0, tokens, codes))
         + multiset(Final(Errored, r, 0, tokens, codes)) == multiset(tokens)
  {
    forall token {
      ConservationAt(r, 0, tokens, codes, token);
    }
    SumOfCopies(Final(Sent, r, 0, tokens, codes), Final(Invalid, r, 0, tokens, codes),
                Final(Errored, r, 0, tokens, codes), tokens);
  }

  /** At most three calls, none of them empty, each later one holding exactly what its predecessor left to retry. */
  lemma {:induction false} CallsChain(r: Responder, attempt: nat, batch: seq<Token>, codes: Codes)
    requires Honest(r) && attempt <= MAX_RETRIES + 1
    ensures |Calls(r, attempt, batch, codes)| <= MAX_RETRIES + 1 - attempt
    ensures forall k | 0 <= k < |Calls(r, attempt, batch, codes)| :: Calls(r, attempt, batch, codes)[k] != []
    ensures forall k | 0 < k < |Calls(r, attempt, batch, codes)| ::
      Calls(r, attempt, batch, codes)[k] == NextBatch(r, attempt + k - 1, Calls(r, attempt, batch, codes)[k - 1], codes)
    decreases MAX_RETRIES + 1 - attempt
  {
    if attempt <= MAX_RETRIES && batch != [] {
      CallsChain(r, attempt + 1, NextBatch(r, attempt, batch, codes), codes);
    }
  }

  /** A token is retried only when the whole call failed or some answer to that very token was transient. */
  lemma RetriedOnlyWhenTransient(r: Responder, attempt: nat, batch: seq<Token>, codes: Codes, token: Token)
    requires Honest(r) && attempt <= MAX_RETRIES && token in NextBatch(r, attempt, batch, codes)
    ensures attempt < MAX_RETRIES
    ensures r(attempt, batch).Threw? || exists i | 0 <= i < |batch| ::
      && batch[i] == token
      && var v := r(attempt, batch).verdicts[i];
      && v.Failed? && v.code in codes.transient && v.code !in codes.invalid
  {
    match r(attempt, batch)
    case Threw =>
    case Answered(verdicts) =>
      if attempt == MAX_RETRIES {
        LastLeavesNothing(batch, verdicts, codes);
      }
      WithMembers(Retry, batch, verdicts, attempt == MAX_RETRIES, codes, token);
  }

  /** The end of a single-token send whose next call is number `attempt`. */
  function SendFrom(answers: nat -> Verdict, attempt: nat, codes: Codes): (fate: Fate)
    requires attempt <= MAX_RETRIES
    ensures fate != Retry
    decreases MAX_RETRIES - attempt
  {
    var fate := FateOf(answers(attempt), attempt == MAX_RETRIES, codes);
    if fate == Retry then SendFrom(answers, attempt + 1, codes) else fate
  }

  /** The SDK never throws and its verdict on a token depends on the token and the attempt alone. */
  ghost predicate Independent(r: Responder, answers: Token -> nat -> Verdict) {
    forall attempt, batch ::
      && r(attempt, batch).Answered?
      && |r(attempt, batch).verdicts| == |batch|
      && forall i | 0 <= i < |batch| :: r(attempt, batch).verdicts[i] == answers(batch[i])(attempt)
  }

  lemma {:induction false} WithCount(fate: Fate, batch: seq<Token>, verdicts: seq<Verdict>, last: bool, codes: Codes, token: Token, v: Verdict)
    requires |batch| == |verdicts|
    requires forall i | 0 <= i < |batch| && batch[i] == token :: verdicts[i] == v
    ensures Copies(token, With(fate, batch, verdicts, last, codes))
         == if FateOf(v, last, codes) == fate then Copies(token, batch) else 0
  {
    if batch != [] {
      var n := |batch| - 1;
      WithCount(fate, batch[..n], verdicts[..n], last, codes, token, v);
      WithSnoc(fate, batch, verdicts, last, codes, token);
    }
  }

  lemma CallCount(fate: Fate, r: Responder, answers: Token -> nat -> Verdict, attempt: nat, batch: seq<Token>, codes: Codes, token: Token)
    requires Honest(r) && Independent(r, answers)
    ensures var end := FateOf(answers(token)(attempt), attempt == MAX_RETRIES, codes);
            && Copies(token, Adds(fate, r, attempt, batch, codes)) == (if end == fate then Copies(token, batch) else 0)
            && Copies(token, NextBatch(r, attempt, batch, codes)) == (if end == Retry then Copies(token, batch) else 0)
  {
    var v := answers(token)(attempt);
    WithCount(fate, batch, r(attempt, batch).verdicts, attempt == MAX_RETRIES, codes, token, v);
    WithCount(Retry, batch, r(attempt, batch).verdicts, attempt == MAX_RETRIES, codes, token, v);
  }

  lemma {:induction false} SendEachAt(fate: Fate, r: Responder, answers: Token -> nat -> Verdict, attempt: nat,
                                      batch: seq<Token>, codes: Codes, token: Token)
    requires Honest(r) && Independent(r, answers)
    requires attempt <= MAX_RETRIES && fate != Retry
    ensures Copies(token, Final(fate, r, attempt, batch, codes))
         == if SendFrom(answers(token), attempt, codes) == fate then Copies(token, batch) else 0
    decreases MAX_RETRIES - attempt
  {
    if batch != [] {
      CallCount(fate, r, answers, attempt, batch, codes, token);
      FinalUnfold(fate, r, attempt, batch, codes, token);
      if attempt < MAX_RETRIES {
        SendEachAt(fate, r, answers, attempt + 1, NextBatch(r, attempt, batch, codes), codes, token);
      } else {
        assert Final(fate, r, attempt + 1, NextBatch(r, attempt, batch, codes), codes) == [];
      }
    }
  }

  /** One multicast then does exactly what sending to each token on its own does, copy by copy. */
  lemma MulticastIsSendEach(fate: Fate, r: Responder, answers: Token -> nat -> Verdict, tokens: seq<Token>, codes: Codes, token: Token)
    requires Honest(r) && Independent(r, answers) && fate != Retry
    ensures multiset(Final(fate, r, 0, tokens, codes))[token]
         == if SendFrom(answers(token), 0, codes) == fate then multiset(tokens)[token] else 0
  {
    SendEachAt(fate, r, answers, 0, tokens, codes, token);
    CopiesIsMultiplicity(token, Final(fate, r, 0, tokens, codes));
    CopiesIsMultiplicity(token, tokens);
  }

  /** One round of the retry loop. */
  lemma Round(r: Responder, attempt: nat, batch: seq<Token>, codes: Codes, fate: Fate, sofar: seq<Token>)
    requires Honest(r) && attempt <= MAX_RETRIES && batch != []
    ensures sofar + Final(fate, r, attempt, batch, codes)
         == sofar + Adds(fate, r, attempt, batch, codes)
            + Final(fate, r, attempt + 1, NextBatch(r, attempt, batch, codes), codes)
  {
    var a, f := Adds(fate, r, attempt, batch, codes), Final(fate, r, attempt + 1, NextBatch(r, attempt, batch, codes), codes);
    assert sofar + (a + f) == sofar + a + f;
  }

  lemma RoundCalls(r: Responder, attempt: nat, batch: seq<Token>, codes: Codes, sofar: seq<seq<Token>>)
    requires Honest(r) && attempt <= MAX_RETRIES && batch != []
    ensures sofar + Calls(r, attempt, batch, codes)
         == sofar + [batch] + Calls(r, attempt + 1, NextBatch(r, attempt, batch, codes), codes)
  {
  }

  class FcmSender {
    const ready: bool
    const codes: Codes

    constructor (ready: bool, codes: Codes)
      ensures this.ready == ready && this.codes == codes
    {
      this.ready := ready;
      this.codes := codes;
    }

    method SendMulticast(tokens: seq<Token>, r: Responder) returns (result: MulticastResult, ghost batches: seq<seq<Token>>)
      requires Honest(r)
      ensures result.skipped <==> tokens != [] && !ready
      ensures result.skipped ==> result.sent == result.invalid == result.errored == [] && batches == []
      ensures !result.skipped ==>
        multiset(result.sent) + multiset(result.invalid) + multiset(result.errored) == multiset(tokens)
      ensures !result.skipped ==>
        && result.sent == Final(Sent, r, 0, tokens, codes)
        && result.invalid == Final(Invalid, r, 0, tokens, codes)
        && result.errored == Final(Errored, r, 0, tokens, codes)
        && batches == Calls(r, 0, tokens, codes)
    {
      batches := [];
      if |tokens| == 0 {
        return MulticastResult([], [], [], false), [];
      }
      if !ready {
        return MulticastResult([], [], [], true), [];
      }
      var sent, invalid, errored;
      sent, invalid, errored, batches := Retrying(tokens, r);
      result := MulticastResult(sent, invalid, errored, false);
      Conservation(r, tokens, codes);
    }

    /** The retry loop. */
    method Retrying(tokens: seq<Token>, r: Responder)
      returns (sent: seq<Token>, invalid: seq<Token>, errored: seq<Token>, ghost batches: seq<seq<Token>>)
      requires Honest(r)
      ensures sent == Final(Sent, r, 0, tokens, codes)
      ensures invalid == Final(Invalid, r, 0, tokens, codes)
      ensures errored == Final(Errored, r, 0, tokens, codes)
      ensures batches == Calls(r, 0, tokens, codes)
    {
      sent, invalid, errored, batches := [], [], [], [];
      var pending := tokens;
      var attempt := 0;
      while attempt <= MAX_RETRIES && |pending| > 0
        invariant attempt <= MAX_RETRIES + 1
        invariant Final(Sent, r, 0, tokens, codes) == sent + Final(Sent, r, attempt, pending, codes)
        invariant Final(Invalid, r, 0, tokens, codes) == invalid + Final(Invalid, r, attempt, pending, codes)
        invariant Final(Errored, r, 0, tokens, codes) == errored + Final(Errored, r, attempt, pending, codes)
        invariant Calls(r, 0, tokens, codes) == batches + Calls(r, attempt, pending, codes)
        decreases MAX_RETRIES + 1 - attempt
      {
        var s, v, e, retryNext := Attempt(attempt, pending, r);
        Round(r, attempt, pending, codes, Sent, sent);
        Round(r, attempt, pending, codes, Invalid, invalid);
        Round(r, attempt, pending, codes, Errored, errored);
        RoundCalls(r, attempt, pending, codes, batches);
        batches := batches + [pending];
        sent, invalid, errored, pending := sent + s, invalid + v, errored + e, retryNext;
        attempt := attempt + 1;
      }
    }

    /** One pass of the loop body: what it pushes onto each list, and what it leaves pending. */
    method Attempt(attempt: nat, pending: seq<Token>, r: Responder)
      returns (sent: seq<Token>, invalid: seq<Token>, errored: seq<Token>, retryNext: seq<Token>)
      requires Honest(r)
      ensures sent == Adds(Sent, r, attempt, pending, codes)
      ensures invalid == Adds(Invalid, r, attempt, pending, codes)
      ensures errored == Adds(Errored, r, attempt, pending, codes)
      ensures retryNext == NextBatch(r, attempt, pending, codes)
    {
      var isLastAttempt := attempt == MAX_RETRIES;
      match r(attempt, pending)
      case Threw =>
        if isLastAttempt {
          return [], [], pending, [];
        }
        return [], [], [], pending;
      case Answered(verdicts) =>
        sent, invalid, errored, retryNext := Classify(pending, verdicts, isLastAttempt);
    }

    /** The loop over one answer. */
    method Classify(pending: seq<Token>, verdicts: seq<Verdict>, isLastAttempt: bool)
      returns (sent: seq<Token>, invalid: seq<Token>, errored: seq<Token>, retryNext: seq<Token>)
      requires |pending| == |verdicts|
      ensures sent == With(Sent, pending, verdicts, isLastAttempt, codes)
      ensures invalid == With(Invalid, pending, verdicts, isLastAttempt, codes)
      ensures errored == With(Errored, pending, verdicts, isLastAttempt, codes)
      ensures retryNext == With(Retry, pending, verdicts, isLastAttempt, codes)
    {
      sent, invalid, errored, retryNext := [], [], [], [];
      for i := 0 to |pending|
        invariant sent == With(Sent, pending[..i], verdicts[..i], isLastAttempt, codes)
        invariant invalid == With(Invalid, pending[..i], verdicts[..i], isLastAttempt, codes)
        invariant errored == With(Errored, pending[..i], verdicts[..i], isLastAttempt, codes)
        invariant retryNext == With(Retry, pending[..i], verdicts[..i], isLastAttempt, codes)
      {
        assert pending[..i + 1][..i] == pending[..i] && verdicts[..i + 1][..i] == verdicts[..i];
        var token, v := pending[i], verdicts[i];
        if v.Delivered? {
          sent := sent + [token];
        } else if v.code in codes.invalid {
          invalid := invalid + [token];
        } else if v.code in codes.transient && !isLastAttempt {
          retryNext := retryNext + [token];
        } else {
          errored := errored + [token];
        }
      }
      assert pending[..|pending|] == pending && verdicts[..|pending|] == verdicts;
    }

    /** The single-token form; None is the "skipped" of an unconfigured sender. */
    method Send(answers: nat -> Verdict) returns (fate: Option<Fate>)
      ensures fate == if ready then Some(SendFrom(answers, 0, codes)) else None
    {
      if !ready {
        return None;
      }
      for attempt := 0 to MAX_RETRIES + 1
        invariant attempt <= MAX_RETRIES ==> SendFrom(answers, 0, codes) == SendFrom(answers, attempt, codes)
        invariant attempt == MAX_RETRIES + 1 ==> SendFrom(answers, 0, codes) == Errored
      {
        var v := answers(attempt);
        if v.Delivered? {
          return Some(Sent);
        }
        if v.code in codes.invalid {
          return Some(Invalid);
        }
        if !(v.code in codes.transient && attempt < MAX_RETRIES) {
          return Some(Errored);
        }
      }
      return Some(Errored);
    }
  }

  /** A row of the push-token table; tokens are unique across users. */
  datatype PushToken = PushToken(token: Token, userId: string)

  function TokensOf(rows: seq<PushToken>, userId: string): seq<Token> {
    if rows == [] then []
    else (if rows[0].userId == userId then [rows[0].token] else []) + TokensOf(rows[1..], userId)
  }

  /** The rows whose token is not listed, in table order. */
  function Without(rows: seq<PushToken>, tokens: seq<Token>): seq<PushToken> {
    if rows == [] then []
    else (if rows[0].token in tokens then [] else [rows[0]]) + Without(rows[1..], tokens)
  }

  lemma {:induction false} WithoutMembers(rows: seq<PushToken>, tokens: seq<Token>, row: PushToken)
    ensures row in Without(rows, tokens) <==> row in rows && row.token !in tokens
  {
    if rows != [] {
      WithoutMembers(rows[1..], tokens, row);
      assert rows == [rows[0]] + rows[1..];
    }
  }

  lemma {:induction false} TokensOfMembers(rows: seq<PushToken>, userId: string, token: Token)
    ensures token in TokensOf(rows, userId) <==> PushToken(token, userId) in rows
  {
    if rows != [] {
      TokensOfMembers(rows[1..], userId, token);
      assert rows == [rows[0]] + rows[1..];
    }
  }

  ghost predicate UniqueTokens(rows: seq<PushToken>) {
    forall i, j | 0 <= i < j < |rows| :: rows[i].token != rows[j].token
  }

  /** What other requests do to the table while a multicast is under way. */
  datatype Change = Register(token: Token, userId: string) | Remove(token: Token, userId: string)

  /** A registration re-points an existing token at its new user. */
  function Registered(rows: seq<PushToken>, token: Token, userId: string): seq<PushToken> {
    if rows == [] then [PushToken(token, userId)]
    else if rows[0].token == token then [PushToken(token, userId)] + rows[1..]
    else [rows[0]] + Registered(rows[1..], token, userId)
  }

  function Removed(rows: seq<PushToken>, token: Token, userId: string): seq<PushToken> {
    if rows == [] then []
    else (if rows[0] == PushToken(token, userId) then [] else [rows[0]]) + Removed(rows[1..], token, userId)
  }

  function Changed(rows: seq<PushToken>, c: Change): seq<PushToken> {
    match c
    case Register(token, userId) => Registered(rows, token, userId)
    case Remove(token, userId) => Removed(rows, token, userId)
  }

  function ChangedAll(rows: seq<PushToken>, cs: seq<Change>): seq<PushToken>
    decreases |cs|
  {
    if cs == [] then rows else ChangedAll(Changed(rows, cs[0]), cs[1..])
  }

  class PushService {
    const fcm: FcmSender
    var rows: seq<PushToken>

    constructor (fcm: FcmSender, rows: seq<PushToken>)
      ensures this.fcm == fcm && this.rows == rows
    {
      this.fcm := fcm;
      this.rows := rows;
    }

    /**
     * `pruneOk` is false when the delete statement fails; the failure is caught and logged.
     * `meanwhile` is what other requests do between the read of the tokens and the delete.
     */
    method SendToUser(userId: string, r: Responder, pruneOk: bool, meanwhile: seq<Change>) returns (ghost batches: seq<seq<Token>>)
      requires Honest(r)
      modifies this
      ensures fcm.ready ==> batches == Calls(r, 0, TokensOf(old(rows), userId), fcm.codes)
      ensures !fcm.ready ==> batches == []
      ensures TokensOf(old(rows), userId) == [] ==> rows == old(rows)
      ensures TokensOf(old(rows), userId) != [] ==>
        rows == if fcm.ready && pruneOk
                then Without(ChangedAll(old(rows), meanwhile), Final(Invalid, r, 0, TokensOf(old(rows), userId), fcm.codes))
                else ChangedAll(old(rows), meanwhile)
    {
      batches := [];
      var tokens := ReadTokens(userId);
      if |tokens| == 0 {
        return;
      }
      var result;
      result, batches := fcm.SendMulticast(tokens, r);
      rows := ChangedAll(rows, meanwhile);
      WithoutNothing(rows);
      if |result.invalid| > 0 && pruneOk {
        rows := Without(rows, result.invalid);
      }
    }

    method ReadTokens(userId: string) returns (tokens: seq<Token>)
      ensures tokens == TokensOf(rows, userId)
    {
      tokens := [];
      for i := 0 to |rows|
        invariant tokens + TokensOf(rows[i..], userId) == TokensOf(rows, userId)
      {
        if rows[i].userId == userId {
          tokens := tokens + [rows[i].token];
        }
      }
    }
  }

  lemma {:induction false} WithoutNothing(rows: seq<PushToken>)
    ensures Without(rows, []) == rows
  {
    if rows != [] {
      WithoutNothing(rows[1..]);
    }
  }

  /** Everything that ends in the invalid list was among the tokens handed in. */
  lemma FinalIsAmong(r: Responder, batch: seq<Token>, codes: Codes, token: Token)
    requires Honest(r) && token in Final(Invalid, r, 0, batch, codes)
    ensures token in batch
  {
    Conservation(r, batch, codes);
    assert token in multiset(Final(Invalid, r, 0, batch, codes));
    assert token in multiset(batch);
  }

  // ---- Whose rows a prune takes.

  /** The user a token is registered to. */
  function Owner(rows: seq<PushToken>, token: Token): Option<string> {
    if rows == [] then None else if rows[0].token == token then Some(rows[0].userId) else Owner(rows[1..], token)
  }

  lemma RestHasOtherTokens(rows: seq<PushToken>)
    requires UniqueTokens(rows) && rows != []
    ensures forall row | row in rows[1..] :: row.token != rows[0].token
  {
    forall row | row in rows[1..] ensures row.token != rows[0].token {
      var i :| 0 <= i < |rows[1..]| && rows[1..][i] == row;
      assert rows[i + 1] == row;
    }
  }

  lemma {:induction false} OwnerIsRow(rows: seq<PushToken>, token: Token, userId: string)
    requires UniqueTokens(rows)
    ensures Owner(rows, token) == Some(userId) <==> PushToken(token, userId) in rows
  {
    if rows != [] {
      OwnerIsRow(rows[1..], token, userId);
      RestHasOtherTokens(rows);
      assert rows == [rows[0]] + rows[1..];
    }
  }

  /** What a change does to one token's owner. */
  function OwnerAfter(owner: Option<string>, c: Change, token: Token): Option<string> {
    if c.token != token then owner
    else match c
      case Register(_, userId) => Some(userId)
      case Remove(_, userId) => if owner == Some(userId) then None else owner
  }

  function OwnerAfterAll(owner: Option<string>, cs: seq<Change>, token: Token): Option<string>
    decreases |cs|
  {
    if cs == [] then owner else OwnerAfterAll(OwnerAfter(owner, cs[0], token), cs[1..], token)
  }

  lemma {:induction false} RegisteredRows(rows: seq<PushToken>, token: Token, userId: string, row: PushToken)
    ensures row in Registered(rows, token, userId) ==> row in rows || row == PushToken(token, userId)
  {
    if rows != [] && rows[0].token != token {
      RegisteredRows(rows[1..], token, userId, row);
      assert rows == [rows[0]] + rows[1..];
    }
  }

  lemma {:induction false} RegisteredOwner(rows: seq<PushToken>, token: Token, userId: string, t: Token)
    requires UniqueTokens(rows)
    ensures UniqueTokens(Registered(rows, token, userId))
    ensures Owner(Registered(rows, token, userId), t) == if t == token then Some(userId) else Owner(rows, t)
  {
    if rows != [] {
      if rows[0].token != token {
        RegisteredOwner(rows[1..], token, userId, t);
        var after := Registered(rows[1..], token, userId);
        forall j | 0 <= j < |after| ensures after[j].token != rows[0].token {
          RegisteredRows(rows[1..], token, userId, after[j]);
          assert after[j] in after;
        }
        assert Registered(rows, token, userId)[1..] == after;
      } else {
        assert Registered(rows, token, userId)[1..] == rows[1..];
      }
    }
  }

  lemma {:induction false} RemovedRows(rows: seq<PushToken>, token: Token, userId: string, row: PushToken)
    ensures row in Removed(rows, token, userId) ==> row in rows
  {
    if rows != [] {
      RemovedRows(rows[1..], token, userId, row);
      assert rows == [rows[0]] + rows[1..];
    }
  }

  lemma {:induction false} RemovedOwner(rows: seq<PushToken>, token: Token, userId: string, t: Token)
    requires UniqueTokens(rows)
    ensures UniqueTokens(Removed(rows, token, userId))
    ensures Owner(Removed(rows, token, userId), t) == if t == token && Owner(rows, t) == Some(userId) then None else Owner(rows, t)
  {
    if rows != [] {
      RemovedOwner(rows[1..], token, userId, t);
      var after := Removed(rows[1..], token, userId);
      forall j | 0 <= j < |after| ensures after[j].token != rows[0].token {
        RemovedRows(rows[1..], token, userId, after[j]);
        assert after[j] in after;
      }
      if rows[0] == PushToken(token, userId) {
        assert Removed(rows, token, userId) == after;
        OwnerElsewhere(rows);
      } else {
        assert Removed(rows, token, userId)[1..] == after;
      }
    }
  }

  lemma {:induction false} OwnerElsewhere(rows: seq<PushToken>)
    requires UniqueTokens(rows) && rows != []
    ensures Owner(rows[1..], rows[0].token) == None
  {
    RestHasOtherTokens(rows);
    forall userId ensures Owner(rows[1..], rows[0].token) != Some(userId) {
      if Owner(rows[1..], rows[0].token) == Some(userId) {
        OwnerIsRow(rows[1..], rows[0].token, userId);
      }
    }
  }

  /** The table's changes seen from one token. */
  lemma {:induction false} ChangedOwner(rows: seq<PushToken>, cs: seq<Change>, token: Token)
    requires UniqueTokens(rows)
    ensures UniqueTokens(ChangedAll(rows, cs))
    ensures Owner(ChangedAll(rows, cs), token) == OwnerAfterAll(Owner(rows, token), cs, token)
    decreases |cs|
  {
    if cs != [] {
      match cs[0]
      case Register(t, userId) => RegisteredOwner(rows, t, userId, token);
      case Remove(t, userId) => RemovedOwner(rows, t, userId, token);
    }
    if cs != [] {
      ChangedOwner(Changed(rows, cs[0]), cs[1..], token);
    }
  }

  lemma {:induction false} WithoutOwner(rows: seq<PushToken>, tokens: seq<Token>, token: Token)
    ensures Owner(Without(rows, tokens), token) == if token in tokens then None else Owner(rows, token)
  {
    if rows != [] {
      WithoutOwner(rows[1..], tokens, token);
      if rows[0].token in tokens {
        assert Without(rows, tokens) == Without(rows[1..], tokens);
      } else {
        assert Without(rows, tokens)[1..] == Without(rows[1..], tokens);
      }
    }
  }

  /**
   * Pruning deletes by token alone. It takes exactly the invalid tokens, each the user's own when
   * read; so another user loses a row exactly when the token was re-pointed to them meanwhile.
   */
  lemma PruneIsExact(rows: seq<PushToken>, meanwhile: seq<Change>, userId: string, r: Responder, codes: Codes, token: Token)
    requires Honest(r) && UniqueTokens(rows)
    ensures
      var invalid := Final(Invalid, r, 0, TokensOf(rows, userId), codes);
      var now := ChangedAll(rows, meanwhile);
      var left := Owner(Without(now, invalid), token);
      var last := OwnerAfterAll(Some(userId), meanwhile, token);
      && left == (if token in invalid then None else Owner(now, token))
      && (token in invalid ==> Owner(rows, token) == Some(userId))
      && (Owner(now, token).Some? && Owner(now, token).value != userId && left == None <==>
            token in invalid && last.Some? && last.value != userId)
  {
    var invalid := Final(Invalid, r, 0, TokensOf(rows, userId), codes);
    ChangedOwner(rows, meanwhile, token);
    WithoutOwner(ChangedAll(rows, meanwhile), invalid, token);
    if token in invalid {
      FinalIsAmong(r, TokensOf(rows, userId), codes, token);
      TokensOfMembers(rows, userId, token);
      OwnerIsRow(rows, token, userId);
    }
  }

  /** With nothing re-pointed meanwhile, rows of other users always stay. */
  lemma OthersKeepTheirRows(rows: seq<PushToken>, userId: string, r: Responder, codes: Codes, row: PushToken)
    requires Honest(r) && UniqueTokens(rows) && row in rows
    ensures var invalid := Final(Invalid, r, 0, TokensOf(rows, userId), codes);
            row !in Without(rows, invalid) <==> row.userId == userId && row.token in invalid
  {
    var invalid := Final(Invalid, r, 0, TokensOf(rows, userId), codes);
    WithoutMembers(rows, invalid, row);
    PruneIsExact(rows, [], userId, r, codes, row.token);
    OwnerIsRow(rows, row.token, row.userId);
  }

  /** Every answer is that the token is not registered. */
  function AllUnregistered(): Responder {
    (attempt, batch) => Answered(seq(|batch|, i => Failed("messaging/unregistered")))
  }

  lemma UnregisteredIsInvalid(token: Token)
    ensures Honest(AllUnregistered()) && token in Final(Invalid, AllUnregistered(), 0, [token], FCM_CODES)
  {
    var r := AllUnregistered();
    assert r(0, [token]) == Answered([Failed("messaging/unregistered")]);
    WithMembers(Invalid, [token], [Failed("messaging/unregistered")], false, FCM_CODES, token);
  }

  /** One user's invalid token, registered by another while the multicast runs: the prune takes the other's row. */
  lemma PruneTakesAnothersRow(token: Token, userId: string, other: string)
    requires userId != other
    ensures Honest(AllUnregistered())
    ensures
      var rows, now := [PushToken(token, userId)], ChangedAll([PushToken(token, userId)], [Register(token, other)]);
      && Owner(now, token) == Some(other)
      && Owner(Without(now, Final(Invalid, AllUnregistered(), 0, TokensOf(rows, userId), FCM_CODES)), token) == None
  {
    var rows, r := [PushToken(token, userId)], AllUnregistered();
    UnregisteredIsInvalid(token);
    assert TokensOf(rows, userId) == [token];
    ChangedOwner(rows, [Register(token, other)], token);
    PruneIsExact(rows, [Register(token, other)], userId, r, FCM_CODES, token);
  }
}
