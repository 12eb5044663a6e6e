/** The calls of a multicast and its three lists, from the SDK's answers alone. */
module PushOutcomes {
  import opened Push

  // ---- The calls.

  /** The tokens whose verdict passes the test, in batch order. */
  function Picked(batch: seq<Token>, verdicts: seq<Verdict>, test: Verdict -> bool): seq<Token>
    requires |batch| == |verdicts|
  {
    if batch == [] then []
    else (if test(verdicts[0]) then [batch[0]] else []) + Picked(batch[1..], verdicts[1..], test)
  }

  lemma {:induction false} PickedSnoc(batch: seq<Token>, verdicts: seq<Verdict>, test: Verdict -> bool)
    requires |batch| == |verdicts| != 0
    ensures var n := |batch| - 1;
      Picked(batch, verdicts, test) == Picked(batch[..n], verdicts[..n], test) + if test(verdicts[n]) then [batch[n]] else []
  {
    var n := |batch| - 1;
    if n > 0 {
      PickedSnoc(batch[1..], verdicts[1..], test);
      assert batch[1..][..n - 1] == batch[..n][1..] && verdicts[1..][..n - 1] == verdicts[..n][1..];
    } else {
      assert batch[1..] == [] && Picked(batch[..0], verdicts[..0], test) == [];
    }
  }

  /** Picking by verdict is what the classification does, for any test that names the fate. */
  lemma {:induction false} WithIsPicked(fate: Fate, batch: seq<Token>, verdicts: seq<Verdict>, last: bool, codes: Codes, test: Verdict -> bool)
    requires |batch| == |verdicts| && forall v :: test(v) <==> FateOf(v, last, codes) == fate
    ensures With(fate, batch, verdicts, last, codes) == Picked(batch, verdicts, test)
  {
    if batch != [] {
      var n := |batch| - 1;
      PickedSnoc(batch, verdicts, test);
      WithIsPicked(fate, batch[..n], verdicts[..n], last, codes, test);
    }
  }

  /** A failure worth another try: transient, and not the token's own fault. */
  function Transient(codes: Codes): Verdict -> bool {
    (v: Verdict) => v.Failed? && v.code in codes.transient && v.code !in codes.invalid
  }

  /** What is left after a call: everything if it threw, else the tokens with transient answers; nothing after the third. */
  lemma LeftToRetry(r: Responder, attempt: nat, batch: seq<Token>, codes: Codes)
    requires Honest(r) && attempt <= MAX_RETRIES
    ensures NextBatch(r, attempt, batch, codes) ==
      if attempt == MAX_RETRIES then []
      else if r(attempt, batch).Threw? then batch
      else Picked(batch, r(attempt, batch).verdicts, Transient(codes))
  {
    if r(attempt, batch).Answered? {
      if attempt == MAX_RETRIES {
        LastLeavesNothing(batch, r(attempt, batch).verdicts, codes);
      } else {
        WithIsPicked(Retry, batch, r(attempt, batch).verdicts, false, codes, Transient(codes));
      }
    }
  }

  lemma {:induction false} CallsEnd(r: Responder, attempt: nat, batch: seq<Token>, codes: Codes, k: nat)
    requires Honest(r) && attempt <= MAX_RETRIES + 1 && k < |Calls(r, attempt, batch, codes)|
    ensures Calls(r, attempt, batch, codes)[0] == batch && attempt + k <= MAX_RETRIES
    ensures var b := Calls(r, attempt, batch, codes);
      |b| > k + 1 <==> attempt + k < MAX_RETRIES && NextBatch(r, attempt + k, b[k], codes) != []
    decreases k
  {
    var rest := Calls(r, attempt + 1, NextBatch(r, attempt, batch, codes), codes);
    assert Calls(r, attempt, batch, codes) == [batch] + rest;
    assert rest == [] <==> attempt + 1 > MAX_RETRIES || NextBatch(r, attempt, batch, codes) == [];
    if k > 0 {
      CallsEnd(r, attempt + 1, NextBatch(r, attempt, batch, codes), codes, k - 1);
    }
  }

  /**
   * The calls, exactly: the first is for all tokens; one that threw is made again with the same batch; one that
   * was answered is followed by one for the tokens with transient answers, if any; the third is the last.
   */
  lemma CallsFollowTheAnswers(r: Responder, tokens: seq<Token>, codes: Codes, k: nat)
    requires Honest(r) && k < |Calls(r, 0, tokens, codes)|
    ensures var b := Calls(r, 0, tokens, codes);
      && b[0] == tokens && b[k] != []
      && var left := if r(k, b[k]).Threw? then b[k] else Picked(b[k], r(k, b[k]).verdicts, Transient(codes));
         && (|b| > k + 1 <==> k < MAX_RETRIES && left != [])
         && (|b| > k + 1 ==> b[k + 1] == left)
  {
    CallsChain(r, 0, tokens, codes);
    CallsEnd(r, 0, tokens, codes, k);
    LeftToRetry(r, k, Calls(r, 0, tokens, codes)[k], codes);
    var b := Calls(r, 0, tokens, codes);
    if |b| > k + 1 {
      assert b[k + 1] == NextBatch(r, k + 1 - 1, b[k + 1 - 1], codes);
    }
  }

  /** And there is a first call exactly when there are tokens. */
  lemma FirstCall(r: Responder, tokens: seq<Token>, codes: Codes)
    requires Honest(r)
    ensures Calls(r, 0, tokens, codes) == [] <==> tokens == []
  {
  }

  // ---- The lists.

  /** What call `k` with this outcome settles: sent, invalid, and errored. */
  ghost function Settled(fate: Fate, r: Responder, k: nat, batch: seq<Token>, codes: Codes): seq<Token>
    requires Honest(r)
  {
    match r(k, batch)
    case Threw => if fate == Errored && k == MAX_RETRIES then batch else []
    case Answered(verdicts) =>
      match fate
      case Sent => Picked(batch, verdicts, (v: Verdict) => v.Delivered?)
      case Invalid => Picked(batch, verdicts, (v: Verdict) => v.Failed? && v.code in codes.invalid)
      case Errored => Picked(batch, verdicts, (v: Verdict) =>
          v.Failed? && v.code !in codes.invalid && (k == MAX_RETRIES || v.code !in codes.transient))
      case Retry => []
  }

  lemma AddedExactly(fate: Fate, r: Responder, k: nat, batch: seq<Token>, codes: Codes)
    requires Honest(r) && k <= MAX_RETRIES && fate != Retry
    ensures Adds(fate, r, k, batch, codes) == Settled(fate, r, k, batch, codes)
  {
    if r(k, batch).Answered? {
      var verdicts, last := r(k, batch).verdicts, k == MAX_RETRIES;
      match fate
      case Sent => WithIsPicked(Sent, batch, verdicts, last, codes, (v: Verdict) => v.Delivered?);
      case Invalid => WithIsPicked(Invalid, batch, verdicts, last, codes, (v: Verdict) => v.Failed? && v.code in codes.invalid);
      case Errored => WithIsPicked(Errored, batch, verdicts, last, codes, (v: Verdict) =>
          v.Failed? && v.code !in codes.invalid && (k == MAX_RETRIES || v.code !in codes.transient));
    }
  }

  /** What the calls from number `k` on settle, in order. */
  ghost function SettledBy(fate: Fate, r: Responder, k: nat, batches: seq<seq<Token>>, codes: Codes): seq<Token>
    requires Honest(r)
    decreases |batches|
  {
    if batches == [] then [] else Settled(fate, r, k, batches[0], codes) + SettledBy(fate, r, k + 1, batches[1..], codes)
  }

  lemma {:induction false} FinalIsSettled(fate: Fate, r: Responder, attempt: nat, batch: seq<Token>, codes: Codes)
    requires Honest(r) && fate != Retry && attempt <= MAX_RETRIES + 1
    ensures Final(fate, r, attempt, batch, codes) == SettledBy(fate, r, attempt, Calls(r, attempt, batch, codes), codes)
    decreases MAX_RETRIES + 1 - attempt
  {
    if attempt <= MAX_RETRIES && batch != [] {
      var rest := Calls(r, attempt + 1, NextBatch(r, attempt, batch, codes), codes);
      assert Calls(r, attempt, batch, codes)[1..] == rest;
      AddedExactly(fate, r, attempt, batch, codes);
      FinalIsSettled(fate, r, attempt + 1, NextBatch(r, attempt, batch, codes), codes);
    }
  }

  /** The three lists of a multicast are, call by call and in order, what its calls settled. */
  lemma ListsFollowTheAnswers(r: Responder, tokens: seq<Token>, codes: Codes)
    requires Honest(r)
    ensures forall fate | fate in {Sent, Invalid, Errored} ::
      Final(fate, r, 0, tokens, codes) == SettledBy(fate, r, 0, Calls(r, 0, tokens, codes), codes)
  {
    FinalIsSettled(Sent, r, 0, tokens, codes);
    FinalIsSettled(Invalid, r, 0, tokens, codes);
    FinalIsSettled(Errored, r, 0, tokens, codes);
  }

  // ---- One token.

  /** `k` is the call that settles a single send: earlier ones were transient, it is not, or is the third. */
  predicate Settles(answers: nat -> Verdict, k: nat, codes: Codes) {
    && k <= MAX_RETRIES && (k == MAX_RETRIES || !Transient(codes)(answers(k)))
    && forall j | 0 <= j < k :: Transient(codes)(answers(j))
  }

  lemma {:induction false} SendIsSettled(answers: nat -> Verdict, attempt: nat, codes: Codes) returns (k: nat)
    requires attempt <= MAX_RETRIES && forall j | 0 <= j < attempt :: Transient(codes)(answers(j))
    ensures Settles(answers, k, codes)
    ensures SendFrom(answers, attempt, codes) ==
      if answers(k).Delivered? then Sent else if answers(k).code in codes.invalid then Invalid else Errored
    decreases MAX_RETRIES - attempt
  {
    if attempt < MAX_RETRIES && Transient(codes)(answers(attempt)) {
      k := SendIsSettled(answers, attempt + 1, codes);
    } else {
      k := attempt;
    }
  }

  /** A single send ends as the first answer that is not transient says, or the third. */
  lemma SendFollowsTheAnswers(answers: nat -> Verdict, codes: Codes, k: nat)
    requires Settles(answers, k, codes)
    ensures SendFrom(answers, 0, codes) ==
      if answers(k).Delivered? then Sent else if answers(k).code in codes.invalid then Invalid else Errored
  {
    var first := SendIsSettled(answers, 0, codes);
    assert first == k;
  }
}
