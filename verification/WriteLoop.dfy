/** Driving a set of records at one sink to terminal outcomes under a retry policy. */
module WriteLoop {
  import opened Wrappers
  import opened Counting
  import opened Records

  // ---- faults and the retry policy -----------------------------------------------------------------

  datatype Class =
    | Unclassified | TransientUpstream | TransientInternal | Throttled | Indeterminate
    | PermanentUpstream | PermanentInternal | PermanentMapping | PermanentContract
    | DuplicateIdempotent | ClockSkew | Fenced | NotConnected | EndOfInput
  {
    /** Retrying can never help. */
    predicate Terminal() { PermanentUpstream? || PermanentInternal? || PermanentMapping? || PermanentContract? }

    /** The fault spends an attempt. */
    predicate Counted() { !Throttled? && !NotConnected? && !EndOfInput? }
  }

  datatype Terminal = TerminalInvalid | TerminalStop | TerminalDeadLetter | TerminalDrop

  datatype OnIndeterminate = IndeterminateStall | IndeterminateRetry | IndeterminateDeadLetter

  datatype Policy = Policy(maxAttempts: int, terminal: Terminal, onIndeterminate: OnIndeterminate) {
    /** Whether another attempt is permitted after the given one failed. */
    predicate Next(attempt: int) { 1 <= attempt < maxAttempts }
  }

  datatype Disp = Retry | DeadLetter | Drop | Stop | Stall

  function TerminalRouting(p: Policy): Disp {
    match p.terminal
    case TerminalDeadLetter => DeadLetter
    case TerminalDrop => Drop
    case _ => Stop
  }

  datatype Routing = Routing(disp: Disp, count: nat)

  /**
   What to do about one fault. `count` is what the record has spent so far, `late` that the
   policy's total time has run out.
   */
  function Route(fault: Class, idempotent: bool, p: Policy, count: nat, late: bool): Routing {
    var kind := if fault.Unclassified? then PermanentInternal else fault;
    if kind.Indeterminate? && !idempotent && !p.onIndeterminate.IndeterminateRetry? then
      Routing(if p.onIndeterminate.IndeterminateDeadLetter? then DeadLetter else Stall, count)
    else if kind.Terminal() then Routing(TerminalRouting(p), count)
    else
      var spent := if kind.Counted() then count + 1 else count;
      if late then Routing(TerminalRouting(p), spent)
      else if kind.Counted() && !p.Next(if spent < 1 then 1 else spent) then Routing(TerminalRouting(p), spent)
      else Routing(Retry, spent)
  }

  /** A counted fault is retried only while attempts are left, and spends one. */
  lemma RetrySpends(fault: Class, idempotent: bool, p: Policy, count: nat, late: bool)
    requires fault.Counted() && Route(fault, idempotent, p, count, late).disp.Retry?
    ensures Route(fault, idempotent, p, count, late).count == count + 1 < p.maxAttempts
  {}

  // ---- the sink ------------------------------------------------------------------------------------

  datatype Failure = Failure(record: RecordID, kind: Class)

  datatype Answer =
    | CallFailed(kind: Class)
    | Result(written: int, failed: seq<Failure>, deferred: seq<RecordID>)

  /**
   Everything foreign the loop consults, as functions of how often it was consulted: the sink, the
   encoder, the dead-letter sinks and the clock.
   */
  datatype Env = Env(
    sink: (nat, seq<RecordID>) -> Answer,
    encoder: (nat, seq<RecordID>) -> Option<Class>,
    letters: (nat, RecordID) -> bool,
    clock: (nat, RecordID) -> bool,
    batches: bool, idempotent: bool, policy: Policy)

  datatype Error = Contract | DeadLetterFailed | Stalled | Stopped | Cancelled

  type Faults = map<RecordID, Class>

  /** Every fault the sink or the encoder can report spends an attempt. */
  ghost predicate AlwaysCounted(env: Env) {
    && (forall n: nat, rs: seq<RecordID> :: env.sink(n, rs).CallFailed? ==> env.sink(n, rs).kind.Counted())
    && (forall n: nat, rs: seq<RecordID>, i: nat ::
          env.sink(n, rs).Result? && i < |env.sink(n, rs).failed| ==> env.sink(n, rs).failed[i].kind.Counted())
    && (forall n: nat, rs: seq<RecordID> :: env.encoder(n, rs).Some? ==> env.encoder(n, rs).value.Counted())
  }

  predicate AllCounted(faults: Faults) { forall r :: r in faults ==> faults[r].Counted() }

  ghost predicate Distinct(rs: seq<RecordID>) { forall r: RecordID :: Count(rs, r) <= 1 }

  function Spent(attempts: map<RecordID, nat>, r: RecordID): nat { if r in attempts then attempts[r] else 0 }

  /** The records without a fault, in order. */
  function Clean(rs: seq<RecordID>, faults: Faults): seq<RecordID> {
    if rs == [] then []
    else
      var init, r := Clean(rs[..|rs| - 1], faults), rs[|rs| - 1];
      if r in faults then init else init + [r]
  }

  lemma {:induction false} CleanSame(rs: seq<RecordID>, a: Faults, b: Faults)
    requires forall r :: r in rs ==> (r in a <==> r in b)
    ensures Clean(rs, a) == Clean(rs, b)
  {
    if rs == [] {
    } else {
      CleanSame(rs[..|rs| - 1], a, b);
    }
  }

  lemma {:induction false} CleanAppend(a: seq<RecordID>, b: seq<RecordID>, faults: Faults)
    ensures Clean(a + b, faults) == Clean(a, faults) + Clean(b, faults)
  {
    if b == [] {
      assert a + b == a;
    } else {
      CleanAppend(a, b[..|b| - 1], faults);
      assert (a + b)[..|a + b| - 1] == a + b[..|b| - 1];
    }
  }

  lemma {:induction false} CleanCount(rs: seq<RecordID>, faults: Faults, r: RecordID)
    ensures Count(Clean(rs, faults), r) == if r in faults then 0 else Count(rs, r)
  {
    if rs == [] {
    } else {
      CleanCount(rs[..|rs| - 1], faults, r);
      CountOne(Clean(rs[..|rs| - 1], faults), rs[|rs| - 1], r);
    }
  }

  /** Faults named in a result; the last one given for a record counts. */
  function Named(failed: seq<Failure>): Faults {
    if failed == [] then map[]
    else Named(failed[..|failed| - 1])[failed[|failed| - 1].record := failed[|failed| - 1].kind]
  }

  lemma {:induction false} NamedCounted(failed: seq<Failure>)
    requires forall i :: 0 <= i < |failed| ==> failed[i].kind.Counted()
    ensures AllCounted(Named(failed))
  {
    if failed == [] {
    } else {
      NamedCounted(failed[..|failed| - 1]);
    }
  }

  // ---- what an answer says of a record ---------------------------------------------------------------

  predicate Names(failed: seq<Failure>, r: RecordID) { exists i :: 0 <= i < |failed| && failed[i].record == r }

  predicate NamedAt(failed: seq<Failure>, r: RecordID, kind: Class, i: nat) {
    && i < |failed| && failed[i] == Failure(r, kind)
    && forall j :: i < j < |failed| ==> failed[j].record != r
  }

  /** The last fault given for the record is of that kind. */
  ghost predicate NamedLast(failed: seq<Failure>, r: RecordID, kind: Class) {
    exists i: nat :: NamedAt(failed, r, kind, i)
  }

  /** The faults have of the record just what the answer said of it. */
  ghost predicate Blames(a: Answer, r: RecordID, faults: Faults) {
    if a.CallFailed? then r in faults && faults[r] == a.kind
    else (r in faults <==> Names(a.failed, r)) && (r in faults ==> NamedLast(a.failed, r, faults[r]))
  }

  /** The answer accounts for every record of the request, and defers none. */
  predicate Trusted(a: Answer, count: nat) {
    a.CallFailed? || (a.written == count - |a.failed| && a.deferred == [])
  }

  lemma {:induction false} NamedSpec(failed: seq<Failure>, r: RecordID)
    ensures r in Named(failed) <==> Names(failed, r)
    ensures r in Named(failed) ==> NamedLast(failed, r, Named(failed)[r])
  {
    if failed == [] {
    } else {
      var n := |failed| - 1;
      NamedSpec(failed[..n], r);
      if failed[n].record == r {
        assert NamedAt(failed, r, failed[n].kind, n);
      } else if r in Named(failed[..n]) {
        var i: nat :| NamedAt(failed[..n], r, Named(failed[..n])[r], i);
        assert NamedAt(failed, r, Named(failed)[r], i);
      }
    }
  }

  // ---- why a record landed or was abandoned ------------------------------------------------------------

  /** The sink call a record landed in, and the request it carried. */
  datatype Landing = Landing(call: nat, request: seq<RecordID>)

  /** The call's answer adds up and does not name the record. */
  ghost predicate LandedBy(env: Env, l: Landing, r: RecordID) {
    var a := env.sink(l.call, l.request);
    r in l.request && a.Result? && Trusted(a, |l.request|) && !Names(a.failed, r)
  }

  /** The fault a record was abandoned for, and whether the dead-letter sinks took the record first. */
  datatype Ending = Ending(fault: Class, call: nat, lettered: bool)

  /** The sink may or may not have written the record, and only the operator can say what to do. */
  predicate Doubtful(env: Env, fault: Class) {
    fault == Indeterminate && !env.idempotent && env.policy.onIndeterminate != IndeterminateRetry
  }

  /** A record is given up as the policy says: as a dead letter that was delivered, or by being dropped. */
  predicate EndedBy(env: Env, e: Ending, r: RecordID) {
    && (e.lettered ==> env.letters(e.call, r))
    && if Doubtful(env, e.fault) then env.policy.onIndeterminate == IndeterminateDeadLetter && e.lettered
       else if e.lettered then env.policy.terminal == TerminalDeadLetter
       else env.policy.terminal == TerminalDrop
  }

  /** The permanent classes; trying again cannot help. */
  predicate Permanent(fault: Class) {
    || fault == Unclassified || fault == PermanentUpstream || fault == PermanentInternal
    || fault == PermanentMapping || fault == PermanentContract
  }

  /** A record is tried again exactly while that may help and the policy's time and attempts allow it. */
  predicate Retries(env: Env, fault: Class, count: nat, late: bool) {
    && !Doubtful(env, fault) && !Permanent(fault) && !late
    && (fault == Throttled || fault == NotConnected || fault == EndOfInput || count + 1 < env.policy.maxAttempts)
  }

  /** The faults of one call with all the records, or of one call for each. */
  ghost predicate Answered(env: Env, call: nat, pending: seq<RecordID>, faults: Faults) {
    if env.batches then forall r :: r in pending ==> Blames(env.sink(call, pending), r, faults)
    else AnsweredEach(env, call, pending, faults)
  }

  ghost predicate AnsweredEach(env: Env, call: nat, pending: seq<RecordID>, faults: Faults) {
    forall i: nat :: i < |pending| ==> Blames(env.sink(call + i, [pending[i]]), pending[i], faults)
  }

  /** The first records were presented one by one: their faults, and what landed of them. */
  ghost predicate EachDone(env: Env, call: nat, done: seq<RecordID>, faults: Faults,
                           before: seq<RecordID>, landed: seq<RecordID>) {
    && AnsweredEach(env, call, done, faults)
    && (forall r :: r in faults ==> r in done)
    && landed == before + Clean(done, faults)
    && (AlwaysCounted(env) ==> AllCounted(faults))
  }

  lemma EachNext(env: Env, call: nat, pending: seq<RecordID>, i: nat, faults: Faults, more: Faults,
                 before: seq<RecordID>, landed: seq<RecordID>, after: seq<RecordID>)
    requires i < |pending| && EachDone(env, call, pending[..i], faults, before, landed) && pending[i] !in pending[..i]
    requires forall r :: r in faults ==> r in more && more[r] == faults[r]
    requires forall r :: r in more ==> r in faults || r == pending[i]
    requires Blames(env.sink(call + i, [pending[i]]), pending[i], more)
    requires after == landed + Clean([pending[i]], more) && (AlwaysCounted(env) ==> AllCounted(more))
    ensures EachDone(env, call, pending[..i + 1], more, before, after)
  {
    var done, last := pending[..i], [pending[i]];
    assert pending[..i + 1] == done + last;
    AnsweredNext(env, call, pending, i, faults, more);
    CleanSame(done, faults, more);
    CleanAppend(done, last, more);
    assert before + Clean(done, more) + Clean(last, more) == before + (Clean(done, more) + Clean(last, more));
  }

  lemma AnsweredNext(env: Env, call: nat, pending: seq<RecordID>, i: nat, faults: Faults, more: Faults)
    requires i < |pending| && AnsweredEach(env, call, pending[..i], faults) && pending[i] !in pending[..i]
    requires forall r :: r in faults ==> r in more && more[r] == faults[r]
    requires forall r :: r in more ==> r in faults || r == pending[i]
    requires Blames(env.sink(call + i, [pending[i]]), pending[i], more)
    ensures AnsweredEach(env, call, pending[..i + 1], more)
  {
    forall k: nat | k < i + 1
      ensures Blames(env.sink(call + k, [pending[k]]), pending[k], more)
    {
      if k < i {
        assert pending[..i][k] == pending[k] && pending[k] in pending[..i];
        assert Blames(env.sink(call + k, [pending[..i][k]]), pending[..i][k], faults);
      }
    }
  }

  /** What stays of a request without the records its answer names landed in that call. */
  lemma {:induction false} CleanUnnamed(rs: seq<RecordID>, failed: seq<Failure>, env: Env, l: Landing)
    requires forall r :: r in rs ==> r in l.request
    requires var a := env.sink(l.call, l.request); a.Result? && a.failed == failed && Trusted(a, |l.request|)
    ensures forall r :: r in Clean(rs, Named(failed)) ==> LandedBy(env, l, r)
  {
    if rs == [] {
    } else {
      CleanUnnamed(rs[..|rs| - 1], failed, env, l);
      NamedSpec(failed, rs[|rs| - 1]);
    }
  }

  /** From place n on, everything that landed has the call it landed in. */
  ghost predicate AllLanded(env: Env, landed: seq<RecordID>, landings: seq<Landing>, n: nat) {
    && n <= |landed| == |landings|
    && forall k :: n <= k < |landed| ==> LandedBy(env, landings[k], landed[k])
  }

  ghost predicate AllEnded(env: Env, abandoned: seq<RecordID>, endings: seq<Ending>, n: nat) {
    && n <= |abandoned| == |endings|
    && forall k :: n <= k < |abandoned| ==> EndedBy(env, endings[k], abandoned[k])
  }

  /** What was settled or held by the sink, and what was abandoned, in order. */
  class Writer {
    var landed: seq<RecordID>
    var abandoned: seq<RecordID>
    var calls: nat

    /** Why each record landed, and why each was abandoned. */
    ghost var landings: seq<Landing>
    ghost var endings: seq<Ending>

    ghost predicate Valid()
      reads this
    {
      |landings| == |landed| && |endings| == |abandoned|
    }

    constructor ()
      ensures Valid() && landed == [] && abandoned == [] && calls == 0
    {
      landed, abandoned, calls, landings, endings := [], [], 0, [], [];
    }

    /** Nothing that had landed or was abandoned is forgotten, and the rest has its reason. */
    twostate predicate Explained(env: Env)
      reads this
    {
      && old(landed) <= landed && old(landings) <= landings && old(abandoned) <= abandoned && old(endings) <= endings
      && AllLanded(env, landed, landings, |old(landed)|) && AllEnded(env, abandoned, endings, |old(abandoned)|)
    }

    /** Faults of a call, for the records it carried. */
    method Attribute(rs: seq<RecordID>, named: Faults, faults: Faults) returns (more: Faults, clean: seq<RecordID>)
      requires forall r :: r in rs ==> r !in faults
      ensures forall r :: r in more <==> r in faults || (r in rs && r in named)
      ensures forall r :: r in more ==> more[r] == if r in faults then faults[r] else named[r]
      ensures clean == Clean(rs, named)
      ensures AllCounted(faults) && AllCounted(named) ==> AllCounted(more)
    {
      more, clean := faults, [];
      for i := 0 to |rs|
        invariant forall r :: r in more <==> r in faults || (r in rs[..i] && r in named)
        invariant forall r :: r in more ==> more[r] == if r in faults then faults[r] else named[r]
        invariant clean == Clean(rs[..i], named)
        invariant AllCounted(faults) && AllCounted(named) ==> AllCounted(more)
      {
        assert rs[..i + 1] == rs[..i] + [rs[i]];
        assert rs[..i + 1][..i] == rs[..i];
        if rs[i] in named {
          more := more[rs[i] := named[rs[i]]];
        } else {
          clean := clean + [rs[i]];
        }
      }
      assert rs[..|rs|] == rs;
    }

    method NamedOf(failed: seq<Failure>) returns (named: Faults)
      ensures named == Named(failed)
    {
      named := map[];
      for i := 0 to |failed|
        invariant named == Named(failed[..i])
      {
        assert failed[..i + 1][..i] == failed[..i];
        named := named[failed[i].record := failed[i].kind];
      }
      assert failed[..|failed|] == failed;
    }

    method AllFail(rs: seq<RecordID>, kind: Class, faults: Faults) returns (more: Faults)
      ensures forall r :: r in more <==> r in faults || r in rs
      ensures forall r :: r in more ==> more[r] == if r in rs then kind else faults[r]
      ensures AllCounted(faults) && kind.Counted() ==> AllCounted(more)
    {
      more := faults;
      for i := 0 to |rs|
        invariant forall r :: r in more <==> r in faults || r in rs[..i]
        invariant forall r :: r in more ==> more[r] == if r in rs[..i] then kind else faults[r]
        invariant AllCounted(faults) && kind.Counted() ==> AllCounted(more)
      {
        more := more[rs[i] := kind];
        assert rs[..i + 1] == rs[..i] + [rs[i]];
      }
      assert rs[..|rs|] == rs;
    }

    /** Notes that the records landed in the call. */
    method Land(rs: seq<RecordID>, ghost l: Landing, ghost env: Env)
      requires Valid() && forall r :: r in rs ==> LandedBy(env, l, r)
      modifies this`landed, this`landings
      ensures Valid() && landed == old(landed) + rs && Explained(env)
    {
      landed := landed + rs;
      landings := landings + seq(|rs|, i requires 0 <= i < |rs| => l);
    }

    /**
     One sink call. A result that does not add up, or defers, is a broken contract. Otherwise the faults of
     the records it carried are what the answer says, and the others have landed.
     */
    method CallSink(rs: seq<RecordID>, env: Env, faults: Faults) returns (ok: bool, more: Faults)
      requires Valid() && forall r :: r in rs ==> r !in faults
      modifies this`landed, this`landings, this`calls
      ensures Valid() && Explained(env) && calls == old(calls) + 1
      ensures ok <==> Trusted(env.sink(old(calls), rs), |rs|)
      ensures ok ==> forall r :: r in rs ==> Blames(env.sink(old(calls), rs), r, more)
      ensures ok ==> forall r :: r in more ==> r in faults || r in rs
      ensures ok ==> forall r :: r in faults ==> r in more && more[r] == faults[r]
      ensures ok ==> landed == old(landed) + Clean(rs, more)
      ensures !ok ==> landed == old(landed)
      ensures ok && AlwaysCounted(env) && AllCounted(faults) ==> AllCounted(more)
    {
      more := faults;
      var answer := env.sink(calls, rs);
      ghost var l := Landing(calls, rs);
      calls := calls + 1;
      if answer.CallFailed? {
        more := AllFail(rs, answer.kind, faults);
        CleanNone(rs, more);
        return true, more;
      }
      if answer.written != |rs| - |answer.failed| - |answer.deferred| || |answer.deferred| > 0 {
        return false, faults;
      }
      var named := NamedOf(answer.failed);
      var clean;
      more, clean := Attribute(rs, named, faults);
      CleanSame(rs, named, more);
      if AlwaysCounted(env) {
        NamedCounted(answer.failed);
      }
      CleanUnnamed(rs, answer.failed, env, l);
      forall r | r in rs
        ensures Blames(answer, r, more)
      {
        NamedSpec(answer.failed, r);
      }
      Land(clean, l, env);
      return true, more;
    }

    /**
     Presents the records once; what has no fault has landed. When encoding fails the sink is not called,
     and every record has the encoder's fault.
     */
    method WriteOnce(pending: seq<RecordID>, env: Env) returns (ok: bool, faults: Faults)
      requires Valid() && Distinct(pending)
      modifies this`landed, this`landings, this`calls
      ensures Valid() && Explained(env)
      ensures env.encoder(old(calls), pending).Some? ==>
                && ok && landed == old(landed) && calls == old(calls)
                && forall r :: r in pending ==> r in faults && faults[r] == env.encoder(old(calls), pending).value
      ensures env.encoder(old(calls), pending).None? && pending != [] ==> calls > old(calls)
      ensures ok && env.encoder(old(calls), pending).None? ==> Answered(env, old(calls), pending, faults)
      ensures ok ==> (forall r :: r in faults ==> r in pending) && landed == old(landed) + Clean(pending, faults)
      ensures !ok ==> forall r :: Count(landed, r) <= Count(old(landed), r) + Count(pending, r)
      ensures ok && AlwaysCounted(env) ==> AllCounted(faults)
    {
      var broken := env.encoder(calls, pending);
      if broken.Some? {
        faults := AllFail(pending, broken.value, map[]);
        CleanNone(pending, faults);
        return true, faults;
      }
      if env.batches {
        ok, faults := CallSink(pending, env, map[]);
      } else {
        ok, faults := WriteEach(pending, env);
      }
    }

    /** One call for the next record. */
    method WriteNext(pending: seq<RecordID>, i: nat, env: Env, faults: Faults, ghost call: nat,
                     ghost before: seq<RecordID>)
      returns (ok: bool, more: Faults)
      requires Valid() && Distinct(pending) && i < |pending| && calls == call + i
      requires EachDone(env, call, pending[..i], faults, before, landed)
      modifies this`landed, this`landings, this`calls
      ensures Valid() && Explained(env) && calls == old(calls) + 1
      ensures ok ==> EachDone(env, call, pending[..i + 1], more, before, landed)
      ensures !ok ==> forall r :: Count(landed, r) <= Count(before, r) + Count(pending, r)
    {
      NotBefore(pending, i);
      ok, more := CallSink([pending[i]], env, faults);
      if ok {
        EachNext(env, call, pending, i, faults, more, before, old(landed), landed);
      } else {
        PartLanded(pending, i, before, landed, faults);
      }
    }

    /** One call for each record. */
    method WriteEach(pending: seq<RecordID>, env: Env) returns (ok: bool, faults: Faults)
      requires Valid() && Distinct(pending)
      modifies this`landed, this`landings, this`calls
      ensures Valid() && Explained(env) && (pending != [] ==> calls > old(calls))
      ensures ok ==> AnsweredEach(env, old(calls), pending, faults)
      ensures ok ==> (forall r :: r in faults ==> r in pending) && landed == old(landed) + Clean(pending, faults)
      ensures !ok ==> forall r :: Count(landed, r) <= Count(old(landed), r) + Count(pending, r)
      ensures ok && AlwaysCounted(env) ==> AllCounted(faults)
    {
      faults := map[];
      for i := 0 to |pending|
        invariant Valid() && Explained(env) && calls == old(calls) + i
        invariant EachDone(env, old(calls), pending[..i], faults, old(landed), landed)
      {
        ok, faults := WriteNext(pending, i, env, faults, old(calls), old(landed));
        if !ok {
          return;
        }
      }
      assert pending[..|pending|] == pending;
      ok := true;
    }

    /** Notes why the record is abandoned. */
    method Abandon(r: RecordID, ghost e: Ending, ghost env: Env)
      requires Valid() && EndedBy(env, e, r)
      modifies this`abandoned, this`endings
      ensures Valid() && abandoned == old(abandoned) + [r] && Explained(env)
    {
      abandoned := abandoned + [r];
      endings := endings + [e];
    }

    /** Routes one fault: the record is to be retried, or is abandoned, or the loop stops. */
    method RouteOne(r: RecordID, fault: Class, count: nat, env: Env)
      returns (err: Option<Error>, again: bool, spent: nat)
      requires Valid()
      modifies this`abandoned, this`endings
      ensures Valid() && Explained(env)
      ensures err != Some(Cancelled)
      ensures err.None? && again <==> Retries(env, fault, count, env.clock(calls, r))
      ensures abandoned == if err.None? && !again then old(abandoned) + [r] else old(abandoned)
      ensures again && fault.Counted() ==> spent == count + 1 < env.policy.maxAttempts
    {
      var late := env.clock(calls, r);
      var to := Route(fault, env.idempotent, env.policy, count, late);
      err, again, spent := None, false, to.count;
      match to.disp
      case Retry =>
        again := true;
        if fault.Counted() {
          RetrySpends(fault, env.idempotent, env.policy, count, late);
        }
      case DeadLetter =>
        if !env.letters(calls, r) {
          return Some(DeadLetterFailed), false, spent;
        }
        Abandon(r, Ending(fault, calls, true), env);
      case Drop => Abandon(r, Ending(fault, calls, false), env);
      case Stall => err := Some(Stalled);
      case Stop => err := Some(Stopped);
    }

    /** Routes every fault: abandons what is terminal and hands back what is to be retried. */
    method RouteAll(pending: seq<RecordID>, faults: Faults, attempts: map<RecordID, nat>, env: Env)
      returns (err: Option<Error>, retry: seq<RecordID>, after: map<RecordID, nat>)
      requires Valid() && Distinct(pending)
      modifies this`abandoned, this`endings
      ensures Valid() && Explained(env)
      ensures err.None? ==> Routed(old(abandoned), abandoned, retry, pending, faults)
      ensures forall r :: Count(abandoned, r) <= Count(old(abandoned), r) + Faulty(pending, faults, r)
      ensures forall r :: r in retry ==> r in pending
      ensures err != Some(Cancelled)
      ensures err.None? && AllCounted(faults) ==> Charged(retry, attempts, after, env.policy.maxAttempts)
    {
      retry, after := [], attempts;
      for i := 0 to |pending|
        invariant Valid() && Explained(env)
        invariant Routed(old(abandoned), abandoned, retry, pending[..i], faults)
        invariant forall r :: r in retry ==> r in pending[..i]
        invariant forall r :: r !in pending[..i] ==> Spent(after, r) == Spent(attempts, r)
        invariant AllCounted(faults) ==> Charged(retry, attempts, after, env.policy.maxAttempts)
      {
        NotBefore(pending, i);
        assert pending[..i + 1] == pending[..i] + [pending[i]];
        var r := pending[i];
        RoutedNext(old(abandoned), abandoned, retry, pending, i, faults);
        if r in faults {
          var again, spent;
          err, again, spent := RouteOne(r, faults[r], Spent(after, r), env);
          if err.Some? {
            FaultyPart(pending, i, faults);
            return;
          }
          if AllCounted(faults) {
            ChargedNext(retry, attempts, after, env.policy.maxAttempts, r, spent);
          }
          if again {
            retry := retry + [r];
          }
          after := after[r := spent];
        }
      }
      assert pending[..|pending|] == pending;
      err := None;
    }

    /**
     Drives the records to terminal outcomes. `patience` is how many waits the context survives.
     Without an error each record has landed once or was abandoned once; in no case was one both,
     or either twice. What landed did so in a call whose answer adds up and does not name it, and what
     was abandoned was delivered as a dead letter or dropped, as the policy says. If every fault spends
     an attempt the loop ends by itself within the policy's attempts.
     */
    method WriteSet(records: seq<RecordID>, env: Env, patience: nat) returns (err: Option<Error>, rounds: nat)
      requires Valid() && Distinct(records)
      modifies this
      ensures Valid() && Explained(env)
      ensures err.None? ==> forall r :: Ended(r) == old(Ended(r)) + Count(records, r)
      ensures forall r :: Ended(r) <= old(Ended(r)) + Count(records, r)
      ensures AlwaysCounted(env) && env.policy.maxAttempts <= patience + 1 ==> err != Some(Cancelled)
      ensures AlwaysCounted(env) && env.policy.maxAttempts >= 1 ==> rounds <= env.policy.maxAttempts
    {
      var pending, attempts := records, map[];
      rounds := 0;
      while pending != []
        invariant Valid() && Explained(env) && Distinct(pending) && rounds <= patience
        invariant forall r :: Ended(r) + Count(pending, r) == old(Ended(r)) + Count(records, r)
        invariant AlwaysCounted(env) ==> forall r :: r in pending ==> Spent(attempts, r) == rounds
        invariant AlwaysCounted(env) && rounds > 0 && pending != [] ==> rounds < env.policy.maxAttempts
        invariant AlwaysCounted(env) && env.policy.maxAttempts >= 1 ==> rounds <= env.policy.maxAttempts
        decreases patience - rounds, |pending|
      {
        var e, retry, after := Round(pending, attempts, env);
        if e.Some? {
          return e, rounds + 1;
        }
        attempts := after;
        if retry == [] {
          return None, rounds + 1;
        }
        assert retry[0] in retry;
        if rounds == patience {
          return Some(Cancelled), rounds + 1;
        }
        pending := retry;
        rounds := rounds + 1;
      }
      err := None;
    }

    /** How often a record has landed or was abandoned. */
    ghost function Ended(r: RecordID): nat
      reads this
    {
      Count(landed, r) + Count(abandoned, r)
    }

    /** One lap: every record lands, is abandoned or is to be retried, and only one of them. */
    method Round(pending: seq<RecordID>, attempts: map<RecordID, nat>, env: Env)
      returns (err: Option<Error>, retry: seq<RecordID>, after: map<RecordID, nat>)
      requires Valid() && Distinct(pending)
      modifies this
      ensures Valid() && Explained(env)
      ensures err != Some(Cancelled)
      ensures err.None? ==> Distinct(retry)
      ensures err.None? ==> forall r :: Ended(r) + Count(retry, r) == old(Ended(r)) + Count(pending, r)
      ensures forall r :: Ended(r) <= old(Ended(r)) + Count(pending, r)
      ensures forall r :: r in retry ==> r in pending
      ensures err.None? && AlwaysCounted(env) ==>
                Charged(retry, attempts, after, env.policy.maxAttempts)
    {
      var ok, faults := WriteOnce(pending, env);
      if !ok {
        return Some(Contract), [], attempts;
      }
      LandedCount(old(landed), pending, faults);
      err, retry, after := RouteAll(pending, faults, attempts, env);
      forall r
        ensures Ended(r) <= old(Ended(r)) + Count(pending, r)
        ensures err.None? ==> Ended(r) + Count(retry, r) == old(Ended(r)) + Count(pending, r)
        ensures err.None? ==> Count(retry, r) <= Count(pending, r)
      {
        assert Count(landed, r) + Faulty(pending, faults, r) == Count(old(landed), r) + Count(pending, r);
      }
    }
  }

  /** How often r is pending with a fault. */
  function Faulty(pending: seq<RecordID>, faults: Faults, r: RecordID): nat {
    if r in faults then Count(pending, r) else 0
  }

  /** What became of the faulty records so far: abandoned or to be retried. */
  ghost predicate Routed(before: seq<RecordID>, abandoned: seq<RecordID>, retry: seq<RecordID>, done: seq<RecordID>,
                         faults: Faults) {
    forall r :: Count(before, r) <= Count(abandoned, r)
             && Count(abandoned, r) + Count(retry, r) == Count(before, r) + Faulty(done, faults, r)
  }

  lemma RoutedNext(before: seq<RecordID>, abandoned: seq<RecordID>, retry: seq<RecordID>, pending: seq<RecordID>,
                   i: nat, faults: Faults)
    requires i < |pending| && Routed(before, abandoned, retry, pending[..i], faults)
    ensures var r, done := pending[i], pending[..i + 1];
            if r in faults then Routed(before, abandoned + [r], retry, done, faults) &&
                Routed(before, abandoned, retry + [r], done, faults)
            else Routed(before, abandoned, retry, done, faults)
  {
    FaultyNext(pending, i, faults);
    OneMore(abandoned, pending[i]);
    OneMore(retry, pending[i]);
  }

  /** Every retried record has spent one attempt more, and has attempts left. */
  predicate Charged(retry: seq<RecordID>, attempts: map<RecordID, nat>, after: map<RecordID, nat>, max: int) {
    forall r :: r in retry ==> Spent(after, r) == Spent(attempts, r) + 1 < max
  }

  /** Charging a record not retried so far leaves the others as they were. */
  lemma ChargedNext(retry: seq<RecordID>, attempts: map<RecordID, nat>, after: map<RecordID, nat>, max: int,
                    r: RecordID, spent: nat)
    requires r !in retry && Charged(retry, attempts, after, max)
    ensures Charged(retry, attempts, after[r := spent], max)
    ensures spent == Spent(attempts, r) + 1 < max ==> Charged(retry + [r], attempts, after[r := spent], max)
  {}

  lemma OneMore(s: seq<RecordID>, r: RecordID)
    ensures forall x :: Count(s + [r], x) == Count(s, x) + if x == r then 1 else 0
  {
    forall x ensures Count(s + [r], x) == Count(s, x) + if x == r then 1 else 0 {
      CountOne(s, r, x);
    }
  }

  lemma LandedCount(before: seq<RecordID>, pending: seq<RecordID>, faults: Faults)
    ensures forall r ::
              Count(before + Clean(pending, faults), r) + Faulty(pending, faults, r)
              == Count(before, r) + Count(pending, r)
  {
    forall r
      ensures Count(before + Clean(pending, faults), r) + Faulty(pending, faults, r)
           == Count(before, r) + Count(pending, r)
    {
      CountAppend(before, Clean(pending, faults), r);
      CleanCount(pending, faults, r);
    }
  }

  /** Ids are distinct, so the next record was not seen before. */
  lemma NotBefore(pending: seq<RecordID>, i: nat)
    requires i < |pending| && Distinct(pending)
    ensures pending[i] !in pending[..i]
  {
    CountPrefix(pending, i + 1, pending[i]);
    assert pending[..i + 1] == pending[..i] + [pending[i]];
    CountOne(pending[..i], pending[i], pending[i]);
    CountIn(pending[..i], pending[i]);
  }

  lemma CountPrefix(s: seq<RecordID>, i: nat, r: RecordID)
    requires i <= |s|
    ensures Count(s[..i], r) <= Count(s, r)
  {
    assert s == s[..i] + s[i..];
    CountAppend(s[..i], s[i..], r);
  }

  lemma FaultyNext(pending: seq<RecordID>, i: nat, faults: Faults)
    requires i < |pending|
    ensures forall r :: Faulty(pending[..i + 1], faults, r) ==
              Faulty(pending[..i], faults, r) + if r == pending[i] && r in faults then 1 else 0
  {
    forall r
      ensures Faulty(pending[..i + 1], faults, r) == Faulty(pending[..i], faults, r) + if r == pending[i] &&
              r in faults then 1 else 0
    {
      assert pending[..i + 1] == pending[..i] + [pending[i]];
      CountOne(pending[..i], pending[i], r);
    }
  }

  lemma FaultyPart(pending: seq<RecordID>, i: nat, faults: Faults)
    requires i <= |pending|
    ensures forall r :: Faulty(pending[..i], faults, r) <= Faulty(pending, faults, r)
  {
    forall r
      ensures Faulty(pending[..i], faults, r) <= Faulty(pending, faults, r)
    {
      CountPrefix(pending, i, r);
    }
  }

  lemma PartLanded(pending: seq<RecordID>, i: nat, before: seq<RecordID>, landed: seq<RecordID>, faults: Faults)
    requires i <= |pending| && landed == before + Clean(pending[..i], faults)
    ensures forall r :: Count(landed, r) <= Count(before, r) + Count(pending, r)
  {
    forall r
      ensures Count(landed, r) <= Count(before, r) + Count(pending, r)
    {
      CountAppend(before, Clean(pending[..i], faults), r);
      CleanCount(pending[..i], faults, r);
      CountPrefix(pending, i, r);
    }
  }

  lemma {:induction false} CleanNone(rs: seq<RecordID>, faults: Faults)
    requires forall r :: r in rs ==> r in faults
    ensures Clean(rs, faults) == []
  {
    if rs == [] {
    } else {
      CleanNone(rs[..|rs| - 1], faults);
    }
  }
}
