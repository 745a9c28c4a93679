/** The two-phase-commit participant that defers a callable until the
    transaction it joined has committed (`actions/datamanager.py`). */
module DataManagers {
  import opened PyBuiltins

  /** Which of a participant's callbacks ran. */
  datatype Callee = Callable | VoteHook | AbortHook

  /** One invocation of a callback, with the arguments it received. */
  datatype Invocation<A> = Invocation(callee: Callee, args: seq<A>)

  /** The calls a transaction coordinator makes on a participant. */
  datatype Request =
    | Commit | Abort | TpcBegin(subtransaction: bool) | TpcVote | TpcFinish | TpcAbort
    | AbortSub | CommitSub | BeforeCompletion | AfterCompletion

  /** How many invocations of `c` a trace holds. */
  function Count<A>(trace: seq<Invocation<A>>, c: Callee): nat
  {
    if trace == [] then 0
    else Count(trace[..|trace| - 1], c) + (if trace[|trace| - 1].callee == c then 1 else 0)
  }

  lemma {:induction false} CountAppend<A>(s: seq<Invocation<A>>, t: seq<Invocation<A>>, c: Callee)
    ensures Count(s + t, c) == Count(s, c) + Count(t, c)
    decreases |t|
  {
    if t != [] {
      assert (s + t)[..|s + t| - 1] == s + t[..|t| - 1];
      CountAppend(s, t[..|t| - 1], c);
    } else {
      assert s + t == s;
    }
  }

  /** How many times `q` occurs in a run. */
  function Occurrences(qs: seq<Request>, q: Request): nat
  {
    if qs == [] then 0
    else Occurrences(qs[..|qs| - 1], q) + (if qs[|qs| - 1] == q then 1 else 0)
  }

  lemma {:induction false} NoOccurrences(qs: seq<Request>, q: Request)
    requires q !in qs
    ensures Occurrences(qs, q) == 0
  {
    if qs != [] {
      assert qs[..|qs| - 1] <= qs;
      NoOccurrences(qs[..|qs| - 1], q);
    }
  }

  /** A participant holding a callable to run once the transaction commits, the
      arguments to run it with, and optional vote and abort callbacks. A callback
      is a function from its arguments to what the call does (return or raise);
      `trace` records every callback the participant invokes. */
  class DataManager<A, R, V> {
    const callable: seq<A> -> Outcome<R>
    const args: seq<A>
    const vote: Option<seq<A> -> Outcome<V>>
    const onAbort: Option<() -> Outcome<()>>
    /** `id(self)`, which the runtime assigns. */
    const ident: nat
    ghost var trace: seq<Invocation<A>>

    /** Stores the four callbacks and arguments unchanged; as `const` fields
        no method can change them afterwards. */
    constructor (callable: seq<A> -> Outcome<R>, args: seq<A>,
                 vote: Option<seq<A> -> Outcome<V>>, onAbort: Option<() -> Outcome<()>>,
                 ident: nat)
      ensures this.callable == callable && this.args == args
      ensures this.vote == vote && this.onAbort == onAbort && this.ident == ident
      ensures trace == []
    {
      this.callable := callable;
      this.args := args;
      this.vote := vote;
      this.onAbort := onAbort;
      this.ident := ident;
      trace := [];
    }

    /** The callbacks one request makes the participant invoke, in order. */
    function Step(q: Request): (r: seq<Invocation<A>>)
      ensures |r| <= 1
      ensures r != [] && r[0].callee == Callable <==> q.TpcFinish?
      ensures r != [] && r[0].callee == VoteHook <==> q.TpcVote? && vote.Some?
      ensures r != [] && r[0].callee == AbortHook <==> (q.Abort? || q.TpcAbort?) && onAbort.Some?
      ensures r != [] && r[0].callee != AbortHook ==> r[0].args == args
      ensures r != [] && r[0].callee == AbortHook ==> r[0].args == []
    {
      match q
      case TpcVote => if vote.Some? then [Invocation(VoteHook, args)] else []
      case TpcFinish => [Invocation(Callable, args)]
      case Abort => if onAbort.Some? then [Invocation(AbortHook, [])] else []
      case TpcAbort => if onAbort.Some? then [Invocation(AbortHook, [])] else []
      case _ => []
    }

    /** The callbacks a sequence of requests makes the participant invoke. */
    function Run(qs: seq<Request>): (r: seq<Invocation<A>>)
      ensures |r| <= |qs|
      ensures forall k :: 0 <= k < |r| ==>
        if r[k].callee == AbortHook then r[k].args == [] else r[k].args == args
    {
      if qs == [] then [] else Run(qs[..|qs| - 1]) + Step(qs[|qs| - 1])
    }

    /** The invocations of `c` one request makes. */
    lemma StepCount(q: Request, c: Callee)
      ensures Count(Step(q), c) == match c
        case Callable => if q == Request.TpcFinish then 1 else 0
        case VoteHook => if vote.Some? && q == Request.TpcVote then 1 else 0
        case AbortHook => if onAbort.Some? && (q == Request.Abort || q == Request.TpcAbort) then 1 else 0
    {
      var t := Step(q);
      if t != [] {
        assert t[..|t| - 1] == [];
      }
    }

    /** Over any run, `callable` runs once per `tpc_finish`, the vote callback once
        per `tpc_vote` when there is one, and the abort callback once per `abort`
        or `tpc_abort` when there is one; nothing else invokes them. */
    lemma {:induction false} RunCounts(qs: seq<Request>)
      ensures Count(Run(qs), Callable) == Occurrences(qs, Request.TpcFinish)
      ensures Count(Run(qs), VoteHook) == if vote.Some? then Occurrences(qs, Request.TpcVote) else 0
      ensures Count(Run(qs), AbortHook)
        == if onAbort.Some? then Occurrences(qs, Request.Abort) + Occurrences(qs, Request.TpcAbort) else 0
    {
      if qs != [] {
        var front, last := qs[..|qs| - 1], qs[|qs| - 1];
        RunCounts(front);
        assert Run(qs) == Run(front) + Step(last);
        CountAppend(Run(front), Step(last), Callable);
        CountAppend(Run(front), Step(last), VoteHook);
        CountAppend(Run(front), Step(last), AbortHook);
        StepCount(last, Callable);
        StepCount(last, VoteHook);
        StepCount(last, AbortHook);
      }
    }

    /** `tpc_begin`, `tpc_vote`, `tpc_finish`: the callable runs exactly once, with
        the stored arguments, and the abort callback never. */
    lemma CommitRunInvokesCallableOnce()
      ensures var t := Run([Request.TpcBegin(false), Request.TpcVote, Request.TpcFinish]);
        && Count(t, Callable) == 1 && Count(t, AbortHook) == 0
        && t[|t| - 1] == Invocation(Callable, args)
    {
      var qs := [Request.TpcBegin(false), Request.TpcVote, Request.TpcFinish];
      assert qs[..1] == [Request.TpcBegin(false)] && qs[..2] == qs[..1] + [Request.TpcVote];
      assert Run(qs[..1]) == Run([]) + Step(Request.TpcBegin(false)) == [];
      var t := Run(qs);
      assert t == Step(Request.TpcVote) + [Invocation(Callable, args)];
      CountAppend(Step(Request.TpcVote), [Invocation(Callable, args)], Callable);
      CountAppend(Step(Request.TpcVote), [Invocation(Callable, args)], AbortHook);
      StepCount(Request.TpcVote, Callable);
      StepCount(Request.TpcVote, AbortHook);
      StepCount(Request.TpcFinish, Callable);
      StepCount(Request.TpcFinish, AbortHook);
    }

    /** A run that never reaches `tpc_finish` (it aborts instead) never invokes
        the callable; ending it with `abort` invokes the abort callback exactly
        when there is one. */
    lemma AbortedRunNeverInvokesCallable(qs: seq<Request>)
      requires Request.TpcFinish !in qs
      ensures Count(Run(qs + [Request.Abort]), Callable) == 0
      ensures onAbort.Some? ==> Count(Run(qs + [Request.Abort]), AbortHook) >= 1
      ensures onAbort.None? ==> Count(Run(qs + [Request.Abort]), AbortHook) == 0
    {
      var all := qs + [Request.Abort];
      assert Request.TpcFinish !in all;
      NoOccurrences(all, Request.TpcFinish);
      RunCounts(all);
      assert all[..|all| - 1] == qs;
    }

    // ---------------------------------------------------- the IDataManager calls

    /** `commit`: nothing to write; invokes no callback. */
    method Commit() returns (r: Outcome<()>)
      ensures r == Returned(())
    {
      r := Returned(());
    }

    /** `abort`: runs the abort callback, with no arguments, when there is one;
        what it raises propagates. */
    method Abort() returns (r: Outcome<()>)
      modifies this
      ensures trace == old(trace) + Step(Request.Abort)
      ensures onAbort.None? ==> r == Returned(())
      ensures onAbort.Some? ==> r == onAbort.value()
    {
      if onAbort.Some? {
        r := onAbort.value();
        trace := trace + [Invocation(AbortHook, [])];
      } else {
        r := Returned(());
      }
    }

    /** `sortKey`: "~" and the decimal identity, ordering the participant after
        those whose keys start with a lower character. */
    function SortKey(): (k: string)
      ensures |k| >= 2 && k[0] == '~'
      ensures forall i :: 1 <= i < |k| ==> IsDigit(k[i])
      ensures DecimalValue(k[1..]) == ident
    {
      var digits := Decimal(ident);
      DecimalRoundTrip(ident);
      assert ("~" + digits)[1..] == digits;
      "~" + digits
    }

    /** `abort_sub`: no subtransaction support; does nothing. */
    method AbortSub() returns (r: Outcome<()>)
      ensures r == Returned(())
    {
      r := Returned(());
    }

    /** `commit_sub`, the same function as `abort_sub`. */
    method CommitSub() returns (r: Outcome<()>)
      ensures r == Returned(())
    {
      r := AbortSub();
    }

    /** `beforeCompletion`: does nothing. */
    method BeforeCompletion() returns (r: Outcome<()>)
      ensures r == Returned(())
    {
      r := Returned(());
    }

    /** `afterCompletion`, the same function as `beforeCompletion`. */
    method AfterCompletion() returns (r: Outcome<()>)
      ensures r == Returned(())
    {
      r := BeforeCompletion();
    }

    /** `tpc_begin`: fails its assertion when asked to begin a subtransaction. */
    method TpcBegin(subtransaction: bool) returns (r: Outcome<()>)
      ensures r == if subtransaction then Raised(AssertionError) else Returned(())
    {
      if subtransaction {
        r := Raised(AssertionError);
      } else {
        r := Returned(());
      }
    }

    /** `tpc_vote`: with no vote callback returns None and invokes nothing;
        otherwise returns what the vote callback returns for the stored
        arguments, and lets what it raises propagate. */
    method TpcVote() returns (r: Outcome<Option<V>>)
      modifies this
      ensures trace == old(trace) + Step(Request.TpcVote)
      ensures vote.None? ==> r == Returned(None)
      ensures vote.Some? && vote.value(args).Returned? ==> r == Returned(Some(vote.value(args).value))
      ensures vote.Some? && vote.value(args).Raised? ==> r == Raised(vote.value(args).exc)
    {
      if vote.Some? {
        var v := vote.value(args);
        trace := trace + [Invocation(VoteHook, args)];
        match v
        case Returned(x) => r := Returned(Some(x));
        case Raised(e) => r := Raised(e);
      } else {
        r := Returned(None);
      }
    }

    /** `tpc_finish`: runs the callable once with the stored arguments. Any
        Exception it raises is logged (`logged`) and not raised: only what is not
        an Exception (SystemExit, KeyboardInterrupt) can escape. */
    method TpcFinish() returns (r: Outcome<()>, logged: Option<Exception>)
      modifies this
      ensures trace == old(trace) + Step(Request.TpcFinish)
      ensures r.Raised? ==> !IsException(r.exc)
      ensures callable(args).Returned? ==> r == Returned(()) && logged == None
      ensures callable(args).Raised? && IsException(callable(args).exc)
        ==> r == Returned(()) && logged == Some(callable(args).exc)
      ensures callable(args).Raised? && !IsException(callable(args).exc)
        ==> r == Raised(callable(args).exc) && logged == None
    {
      var outcome := callable(args);
      trace := trace + [Invocation(Callable, args)];
      match outcome
      case Returned(_) =>
        r, logged := Returned(()), None;
      case Raised(e) =>
        if IsException(e) {
          r, logged := Returned(()), Some(e);
        } else {
          r, logged := Raised(e), None;
        }
    }

    /** `tpc_abort`, the same function as `abort`. */
    method TpcAbort() returns (r: Outcome<()>)
      modifies this
      ensures trace == old(trace) + Step(Request.TpcAbort)
      ensures onAbort.None? ==> r == Returned(())
      ensures onAbort.Some? ==> r == onAbort.value()
    {
      r := Abort();
    }
  }

  /** Participants with different identities have different sort keys. */
  lemma SortKeysDistinct<A, R, V, A', R', V'>(a: DataManager<A, R, V>, b: DataManager<A', R', V'>)
    requires a.ident != b.ident
    ensures a.SortKey() != b.SortKey()
  {
    DecimalInjective(a.ident, b.ident);
    assert a.SortKey()[1..] == Decimal(a.ident);
    assert b.SortKey()[1..] == Decimal(b.ident);
  }
}
