/**
  The scope tree the normaliser consults, and the two per-scope outputs it
  writes: the call ledger (`calls`) and the throwable accumulator.

  Scopes live in an arena and are addressed by index. A scope's parent always
  has a smaller index than the scope itself, so walking up the parent links
  ends.
*/
module Scopes {
  import opened Wrappers
  import opened Types

  type ScopeId = nat

  /** The fixed part of a scope: whether it is function-kind, and its parent. */
  datatype ScopeInfo = ScopeInfo(isFunction: bool, parent: Option<ScopeId>)

  /**
    The module's scopes, plus `body`: the scopes registered for statement
    bodies, keyed by the name the scope was registered under; and
    `fallback`: the scope the search for a function-kind scope yields when
    none encloses the current one (None: it yields nothing).
  */
  datatype ScopeTree = ScopeTree(scopes: seq<ScopeInfo>, body: map<string, ScopeId>, fallback: Option<ScopeId>)

  predicate WellFormed(g: ScopeTree)
  {
    && (forall s :: 0 <= s < |g.scopes| && g.scopes[s].parent.Some? ==> g.scopes[s].parent.value < s)
    && (forall key :: key in g.body ==> g.body[key] < |g.scopes|)
    && (g.fallback.Some? ==> g.fallback.value < |g.scopes|)
  }

  /** The scope itself followed by its ancestors, nearest first. */
  function Ancestors(g: ScopeTree, s: ScopeId): (r: seq<ScopeId>)
    requires WellFormed(g) && s < |g.scopes|
    ensures |r| > 0 && r[0] == s
    ensures forall a :: a in r ==> a <= s
    decreases s
  {
    match g.scopes[s].parent
    case None => [s]
    case Some(p) => [s] + Ancestors(g, p)
  }

  /**
    The scope a call made in `s` is recorded in: `s` itself when it is
    function-kind, otherwise the nearest function-kind ancestor; None when
    there is none. Since ancestors have smaller indices, "nearest" is the
    function-kind ancestor with the largest index.
  */
  function NearestFunctionScope(g: ScopeTree, s: ScopeId): (r: Option<ScopeId>)
    requires WellFormed(g) && s < |g.scopes|
    ensures r.Some? ==> r.value in Ancestors(g, s) && g.scopes[r.value].isFunction
    ensures forall a :: a in Ancestors(g, s) && g.scopes[a].isFunction ==> r.Some? && a <= r.value
    decreases s
  {
    if g.scopes[s].isFunction then Some(s)
    else
      match g.scopes[s].parent
      case None => None
      case Some(p) => NearestFunctionScope(g, p)
  }

  /**
    The scope whose ledger receives a call made in `s`: the nearest
    function-kind scope when there is one, otherwise the fallback.
  */
  function LedgerScope(g: ScopeTree, s: ScopeId): (r: Option<ScopeId>)
    requires WellFormed(g) && s < |g.scopes|
    ensures r.Some? ==> r.value < |g.scopes|
  {
    match NearestFunctionScope(g, s)
    case Some(f) => Some(f)
    case None => g.fallback
  }

  /**
    The ledger scope is the nearest function-kind ancestor-or-self of `s`
    whenever one exists, and only otherwise the fallback.
  */
  lemma LedgerScopeIsNearestFunctionScope(g: ScopeTree, s: ScopeId)
    requires WellFormed(g) && s < |g.scopes|
    ensures (exists a :: a in Ancestors(g, s) && g.scopes[a].isFunction) ==>
      && LedgerScope(g, s).Some?
      && LedgerScope(g, s).value in Ancestors(g, s)
      && g.scopes[LedgerScope(g, s).value].isFunction
      && forall a :: a in Ancestors(g, s) && g.scopes[a].isFunction ==> a <= LedgerScope(g, s).value
    ensures (forall a :: a in Ancestors(g, s) ==> !g.scopes[a].isFunction) ==> LedgerScope(g, s) == g.fallback
    ensures g.scopes[s].isFunction ==> LedgerScope(g, s) == Some(s)
  {
  }

  /** One side effect of the normaliser, in the order it happens. */
  datatype Effect =
    | Recorded(scope: ScopeId, meta: CallMeta)   // a call record pushed on the scope's ledger
    | Thrown(scope: ScopeId, value: Arg)         // a value added to the scope's throwables

  /** The call records that a trace pushes on the ledger of scope `s`, in order. */
  function CallsFor(trace: seq<Effect>, s: ScopeId): seq<CallMeta>
  {
    if |trace| == 0 then []
    else
      (if trace[0].Recorded? && trace[0].scope == s then [trace[0].meta] else [])
      + CallsFor(trace[1..], s)
  }

  /** The values that a trace adds to the throwables of scope `s`, in order. */
  function ThrownFor(trace: seq<Effect>, s: ScopeId): seq<Arg>
  {
    if |trace| == 0 then []
    else
      (if trace[0].Thrown? && trace[0].scope == s then [trace[0].value] else [])
      + ThrownFor(trace[1..], s)
  }

  lemma {:induction false} CallsForConcat(a: seq<Effect>, b: seq<Effect>, s: ScopeId)
    ensures CallsFor(a + b, s) == CallsFor(a, s) + CallsFor(b, s)
  {
    if |a| > 0 {
      assert (a + b)[1..] == a[1..] + b;
      CallsForConcat(a[1..], b, s);
    } else {
      assert a + b == b;
    }
  }

  lemma {:induction false} ThrownForConcat(a: seq<Effect>, b: seq<Effect>, s: ScopeId)
    ensures ThrownFor(a + b, s) == ThrownFor(a, s) + ThrownFor(b, s)
  {
    if |a| > 0 {
      assert (a + b)[1..] == a[1..] + b;
      ThrownForConcat(a[1..], b, s);
    } else {
      assert a + b == b;
    }
  }

  /** The state the normaliser writes: one ledger and one throwable list per scope. */
  datatype Ledgers = Ledgers(calls: seq<seq<CallMeta>>, throwables: seq<seq<Arg>>)

  /** The ledgers after a trace has been carried out: every scope gets its own suffix. */
  function Apply(st: Ledgers, trace: seq<Effect>): (r: Ledgers)
    ensures |r.calls| == |st.calls| && |r.throwables| == |st.throwables|
    ensures forall s :: 0 <= s < |st.calls| ==> r.calls[s] == st.calls[s] + CallsFor(trace, s)
    ensures forall s :: 0 <= s < |st.throwables| ==> r.throwables[s] == st.throwables[s] + ThrownFor(trace, s)
  {
    Ledgers(
      seq(|st.calls|, s requires 0 <= s < |st.calls| => st.calls[s] + CallsFor(trace, s)),
      seq(|st.throwables|, s requires 0 <= s < |st.throwables| => st.throwables[s] + ThrownFor(trace, s)))
  }

  /** A trace that never names scope `s` pushes nothing on its ledger and adds nothing to its throwables. */
  lemma {:induction false} UntouchedScope(trace: seq<Effect>, s: ScopeId)
    requires forall i :: 0 <= i < |trace| ==> trace[i].scope != s
    ensures CallsFor(trace, s) == [] && ThrownFor(trace, s) == []
  {
    if |trace| > 0 {
      assert forall i :: 0 <= i < |trace[1..]| ==> trace[1..][i] == trace[i + 1];
      UntouchedScope(trace[1..], s);
    }
  }

  /**
    Frame: carrying out a trace changes only the scopes it names; every other
    scope keeps its ledger and its throwables as they were.
  */
  lemma ApplyFrame(st: Ledgers, trace: seq<Effect>, s: ScopeId)
    requires s < |st.calls| && s < |st.throwables|
    requires forall i :: 0 <= i < |trace| ==> trace[i].scope != s
    ensures Apply(st, trace).calls[s] == st.calls[s]
    ensures Apply(st, trace).throwables[s] == st.throwables[s]
  {
    UntouchedScope(trace, s);
  }

  /** Carrying out two traces one after the other is carrying out their concatenation. */
  lemma ApplyConcat(st: Ledgers, a: seq<Effect>, b: seq<Effect>)
    ensures Apply(Apply(st, a), b) == Apply(st, a + b)
  {
    forall s | 0 <= s < |st.calls|
      ensures Apply(Apply(st, a), b).calls[s] == Apply(st, a + b).calls[s]
    {
      CallsForConcat(a, b, s);
    }
    forall s | 0 <= s < |st.throwables|
      ensures Apply(Apply(st, a), b).throwables[s] == Apply(st, a + b).throwables[s]
    {
      ThrownForConcat(a, b, s);
    }
  }

  lemma ApplyEmpty(st: Ledgers)
    ensures Apply(st, []) == st
  {
    var r := Apply(st, []);
    forall s | 0 <= s < |st.calls| ensures r.calls[s] == st.calls[s] {
      assert CallsFor([], s) == [];
    }
    forall s | 0 <= s < |st.throwables| ensures r.throwables[s] == st.throwables[s] {
      assert ThrownFor([], s) == [];
    }
  }
}
