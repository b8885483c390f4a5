/**
 What the todo store's calls add up to: whole runs refine the plain map, a
 restart brings back what was last projected, and the exact reach of the
 200-row query limit.
 */
module TodoRuns {
  import opened Wrappers
  import opened TodoItems
  import opened TodosTable
  import opened TodoSpec

  // ---- runs ----

  /** The plain map of one owner after a list of calls; other owners' calls pass it by. */
  function PlainRun(view: map<string, Item>, calls: seq<Call>, owner: string): map<string, Item> {
    if calls == [] then view
    else
      var before := PlainRun(view, calls[..|calls| - 1], owner);
      var c := calls[|calls| - 1];
      if c.owner == owner then Next(before, c) else before
  }

  /** `outs` holds the answers, None where a call failed. */
  datatype Run = Run(states: seq<State>, calls: seq<Call>, outs: seq<Option<Answer>>)

  /** What the store's methods promise of one call, failed or not. */
  ghost predicate IsStep(s: State, c: Call, out: Option<Answer>, s': State) {
    if c.Close? then out == Some(Done) && s' == State(map[], s.rows)
    else
      && KeepsOthers(s, s', c.owner)
      && (Loadable(s, c.owner) ==> match out { case Some(a) => Served(s, c, a, s') case None => Missed(s, c, s') })
  }

  ghost predicate IsRun(r: Run) {
    && |r.states| == |r.calls| + 1 && |r.outs| == |r.calls| && Inv(r.states[0])
    && forall i :: 0 <= i < |r.calls| ==> IsStep(r.states[i], r.calls[i], r.outs[i], r.states[i + 1])
  }

  /** None of the owner's calls fails, and the owner never has more todos than one query returns. */
  ghost predicate Untroubled(r: Run, o: string)
    requires |r.states| > 0 && |r.outs| == |r.calls|
  {
    && (forall i :: 0 <= i < |r.calls| && r.calls[i].owner == o ==> r.outs[i].Some?)
    && forall k :: 0 <= k <= |r.calls| ==> |PlainRun(View(r.states[0], o), r.calls[..k], o)| <= PAGE
  }

  /** The owner's todos are the same in memory and in the table, which can bring them back. */
  ghost predicate Ready(s: State, o: string) {
    Inv(s) && InStep(s, o) && Fits(s.rows, o)
  }

  lemma ViewSizeIsRowCount(s: State, o: string)
    requires Inv(s) && InStep(s, o)
    ensures |View(s, o)| == |RowsOf(s.rows, o)|
  {
    assert View(s, o) == Projection(s.rows, o);
    assert Projection(s.rows, o).Keys == KeysOf(s.rows, o);
    RowPerKey(s.rows, o);
    assert |View(s, o)| == |View(s, o).Keys|;
  }

  /** One step as one owner sees it. */
  lemma StepFor(s: State, c: Call, out: Option<Answer>, s': State, o: string)
    requires IsStep(s, c, out, s') && Ready(s, o) && (c.owner == o ==> out.Some?)
    ensures View(s', o) == if c.owner == o then Next(View(s, o), c) else View(s, o)
    ensures c.owner == o && !c.Close? ==> Answers(View(s, o), c, out.value)
    ensures |View(s', o)| <= PAGE ==> Ready(s', o)
  {
    hide View, Answers, Next, Items, Projection, WithinPage;
    if c.Close? {
      CloseShows(s, o);
      CloseChangesNothing(View(s, o), c);
    } else if c.owner == o {
      OwnStep(s, c, out.value, s');
    } else {
      assert Kept(s, s', o);
    }
    assert Inv(s') && InStep(s', o);
    ViewSizeIsRowCount(s', o);
  }

  lemma OwnStep(s: State, c: Call, a: Answer, s': State)
    requires Ready(s, c.owner) && Served(s, c, a, s')
    ensures InStep(s', c.owner)
  {
    StaysWithinPage(s, c);
    hide View, Answers, Next, Items, Projection, WithinPage;
  }

  lemma CloseChangesNothing(view: map<string, Item>, c: Call)
    requires c.Close?
    ensures Next(view, c) == view
  {}

  /** Dropping the documents: whoever's table was in step is shown the same as before. */
  lemma CloseShows(s: State, o: string)
    requires Inv(s) && InStep(s, o)
    ensures var s' := State(map[], s.rows); Inv(s') && InStep(s', o) && View(s', o) == View(s, o)
  {
    hide Projection, Items;
  }

  /** Every run of Create, Get, List, Update, Delete, ClearCompleted, Count and
      Close, calls that fail among them: an owner none of whose own calls failed is
      shown the plain map, state by state and answer by answer, whatever happened to
      the others. */
  lemma {:induction false} RunRefinesPlainMap(r: Run, o: string, k: nat)
    requires IsRun(r) && k <= |r.calls| && Untroubled(r, o) && Ready(r.states[0], o)
    ensures Ready(r.states[k], o) && View(r.states[k], o) == PlainRun(View(r.states[0], o), r.calls[..k], o)
    ensures forall i :: 0 <= i < k && r.calls[i].owner == o && !r.calls[i].Close? ==>
                          Answers(PlainRun(View(r.states[0], o), r.calls[..i], o), r.calls[i], r.outs[i].value)
  {
    hide *;
    RunAt(r, o, k);
    if k > 0 {
      RunRefinesPlainMap(r, o, k - 1);
      StepAt(r, k - 1);
      PlainRunNext(View(r.states[0], o), r.calls, k - 1, o);
      StepFor(r.states[k - 1], r.calls[k - 1], r.outs[k - 1], r.states[k], o);
    } else {
      PlainRunNone(View(r.states[0], o), r.calls, o);
    }
  }

  lemma RunAt(r: Run, o: string, k: nat)
    requires IsRun(r) && k <= |r.calls| && Untroubled(r, o)
    ensures |r.states| == |r.calls| + 1 && |r.outs| == |r.calls| && |PlainRun(View(r.states[0], o), r.calls[..k], o)| <= PAGE
    ensures k > 0 && r.calls[k - 1].owner == o ==> r.outs[k - 1].Some?
  {}

  lemma PlainRunNone(view: map<string, Item>, calls: seq<Call>, o: string)
    ensures PlainRun(view, calls[..0], o) == view
  {}

  lemma PlainRunNext(view: map<string, Item>, calls: seq<Call>, n: nat, o: string)
    requires n < |calls|
    ensures PlainRun(view, calls[..n + 1], o)
            == var before := PlainRun(view, calls[..n], o); if calls[n].owner == o then Next(before, calls[n]) else before
  {
    assert calls[..n + 1][..n] == calls[..n];
  }

  lemma StepAt(r: Run, i: nat)
    requires IsRun(r) && i < |r.calls|
    ensures |r.states| == |r.calls| + 1 && |r.outs| == |r.calls|
    ensures IsStep(r.states[i], r.calls[i], r.outs[i], r.states[i + 1])
  {}

  /** One step as its owner and the others see it, failed or not. */
  ghost predicate Seen(s: State, c: Call, out: Option<Answer>, s': State, o: string) {
    if c.owner != o then View(s', o) == View(s, o)
    else
      match out
      case Some(a) => View(s', o) == Next(View(s, o), c) && Answers(View(s, o), c, a)
      case None => Partly(View(s, o), c, View(s', o))
  }

  lemma SeenStep(s: State, c: Call, out: Option<Answer>, s': State, o: string)
    requires IsStep(s, c, out, s') && Loadable(s, o) && !c.Close?
    ensures Loadable(s', o) && Seen(s, c, out, s', o)
  {
    hide View, Answers, Next, Between, Partly;
    assert c.owner != o ==> Kept(s, s', o);
  }

  /** On a run without a restart every call moves its owner's todos by its whole step
      if it was answered, and by a part of it if it failed. */
  lemma {:induction false} FailedCallsTakePart(r: Run, o: string, k: nat)
    requires IsRun(r) && k <= |r.calls| && Loadable(r.states[0], o)
    requires forall i :: 0 <= i < |r.calls| ==> !r.calls[i].Close?
    ensures |r.states| == |r.calls| + 1 && |r.outs| == |r.calls| && Loadable(r.states[k], o)
    ensures forall i :: 0 <= i < k ==> Seen(r.states[i], r.calls[i], r.outs[i], r.states[i + 1], o)
  {
    if k > 0 {
      hide *;
      FailedCallsTakePart(r, o, k - 1);
      StepAt(r, k - 1);
      SeenStep(r.states[k - 1], r.calls[k - 1], r.outs[k - 1], r.states[k], o);
    }
  }

  /** The calls that were answered. */
  function Answered(calls: seq<Call>, outs: seq<Option<Answer>>): seq<Call>
    requires |outs| == |calls|
  {
    if calls == [] then []
    else
      var n := |calls| - 1;
      Answered(calls[..n], outs[..n]) + if outs[n].Some? then [calls[n]] else []
  }

  /** The call may change todo `x`. */
  predicate Names(c: Call, x: string) {
    match c
    case Create(_, t) => t.id == x
    case Update(_, id, _) => id == x
    case Delete(_, id) => id == x
    case ClearCompleted(_) => true
    case _ => false
  }

  lemma NextAt(v: map<string, Item>, w: map<string, Item>, c: Call, x: string)
    requires At(v, x) == At(w, x)
    ensures At(Next(v, c), x) == At(Next(w, c), x)
  {}

  lemma PartlyAt(v: map<string, Item>, c: Call, after: map<string, Item>, x: string)
    requires Partly(v, c, after) && !Names(c, x)
    ensures At(after, x) == At(v, x)
  {
    hide Begun, PatchedBy;
  }

  lemma SeenAt(s: State, c: Call, out: Option<Answer>, s': State, o: string, plain: map<string, Item>, x: string)
    requires Seen(s, c, out, s', o) && At(View(s, o), x) == At(plain, x) && (c.owner == o && out.None? ==> !Names(c, x))
    ensures At(View(s', o), x) == At(if c.owner == o && out.Some? then Next(plain, c) else plain, x)
  {
    hide View, Next, Partly, Names;
    if c.owner == o {
      NextAt(View(s, o), plain, c, x);
      if out.None? { PartlyAt(View(s, o), c, View(s', o), x); }
    }
  }

  lemma PlainNext(view: map<string, Item>, calls: seq<Call>, outs: seq<Option<Answer>>, o: string, n: nat)
    requires |outs| == |calls| > n
    ensures PlainRun(view, Answered(calls[..n + 1], outs[..n + 1]), o)
            == var before := PlainRun(view, Answered(calls[..n], outs[..n]), o);
               if calls[n].owner == o && outs[n].Some? then Next(before, calls[n]) else before
  {
    assert calls[..n + 1][..n] == calls[..n] && outs[..n + 1][..n] == outs[..n];
    var front, all := Answered(calls[..n], outs[..n]), Answered(calls[..n + 1], outs[..n + 1]);
    assert all == front + if outs[n].Some? then [calls[n]] else [];
    hide Next;
    if outs[n].Some? {
      assert all[..|all| - 1] == front && all[|all| - 1] == calls[n];
    } else {
      assert all == front;
    }
  }

  /** A todo that no failed call named is shown as if the failed calls had not been made. */
  lemma {:induction false} UnnamedTodosAreExact(r: Run, o: string, x: string, k: nat)
    requires IsRun(r) && k <= |r.calls| && Loadable(r.states[0], o)
    requires forall i :: 0 <= i < |r.calls| ==> !r.calls[i].Close?
    requires forall i :: 0 <= i < |r.calls| && r.calls[i].owner == o && Names(r.calls[i], x) ==> r.outs[i].Some?
    ensures At(View(r.states[k], o), x) == At(PlainRun(View(r.states[0], o), Answered(r.calls[..k], r.outs[..k]), o), x)
  {
    FailedCallsTakePart(r, o, k);
    hide *;
    var first := View(r.states[0], o);
    if k > 0 {
      UnnamedTodosAreExact(r, o, x, k - 1);
      PlainNext(first, r.calls, r.outs, o, k - 1);
      SeenAt(r.states[k - 1], r.calls[k - 1], r.outs[k - 1], r.states[k], o,
             PlainRun(first, Answered(r.calls[..k - 1], r.outs[..k - 1]), o), x);
    } else {
      NothingAnswered(first, r.calls, r.outs, o);
    }
  }

  lemma NothingAnswered(view: map<string, Item>, calls: seq<Call>, outs: seq<Option<Answer>>, o: string)
    requires |outs| == |calls|
    ensures PlainRun(view, Answered(calls[..0], outs[..0]), o) == view
  {}

  /** And a restart after a failed call brings back each todo as it was before the
      call or as the call left it. */
  lemma RestartShowsOldOrNew(s: State, c: Call, s': State, k: string)
    requires Missed(s, c, s') && InStep(s, c.owner) && Fits(s.rows, c.owner)
    ensures var shown := View(State(map[], s'.rows), c.owner);
            At(shown, k) == At(View(s, c.owner), k) || At(shown, k) == At(View(s', c.owner), k)
  {
    hide Projection, Items;
  }

  /** Every todo is active or completed, and Count counts both lists. */
  lemma ActivePlusCompletedIsCount(view: map<string, Item>, active: seq<Todo>, completed: seq<Todo>)
    requires Lists(active, view, "active") && Lists(completed, view, "completed")
    ensures |active| + |completed| == |view|
  {
    var a, c := Selected(view, "active"), Selected(view, "completed");
    assert a + c == view.Keys && a !! c;
    assert |a + c| == |a| + |c|;
  }

  // ---- the 200-row limit, exactly ----

  lemma {:induction false} SubsetOfSize<T>(all: set<T>, n: nat) returns (part: set<T>)
    requires n <= |all|
    ensures part <= all && |part| == n
  {
    if n == |all| { return all; }
    var x :| x in all;
    part := SubsetOfSize(all - {x}, n);
  }

  /** A restart rebuilds the todos that were last projected, whatever page the
      query returns, exactly when there are at most 200 of them. */
  lemma RestartRestoresIffWithinPage(s: State, owner: string)
    requires Inv(s) && InStep(s, owner)
    ensures (forall page :: IsPage(s.rows, owner, page) ==> Projection(Restrict(s.rows, page), owner) == View(s, owner))
            <==> |View(s, owner)| <= PAGE
  {
    var rows, all := s.rows, RowsOf(s.rows, owner);
    ViewSizeIsRowCount(s, owner);
    if |all| <= PAGE {
      forall page | IsPage(rows, owner, page)
        ensures Projection(Restrict(rows, page), owner) == View(s, owner)
      {
        RestrictToOwner(rows, owner, page);
      }
    } else {
      var page := SubsetOfSize(all, PAGE);
      assert IsPage(rows, owner, page);
      ProjectedSize(rows, owner, page);
      assert Projection(Restrict(rows, page), owner).Keys == KeysOf(Restrict(rows, page), owner);
      assert |View(s, owner).Keys| > PAGE;
    }
  }

  /** Close, then the lazy rebuild: nothing anyone is shown changes if and only if the
      table was in step with the documents. */
  lemma RestartRoundTrip(s: State, o: string)
    requires Inv(s)
    ensures Inv(State(map[], s.rows)) && (View(State(map[], s.rows), o) == View(s, o) <==> InStep(s, o))
  {
    hide Projection, Items;
  }

  /** The delete sweep reads one page. It leaves exactly the wanted todos,
      whatever page it gets, exactly when the rows fit the page or none is stale. */
  lemma SweepExactIffWithinPage(up: Rows, owner: string, want: map<string, Item>)
    requires NoDup(up)
    requires forall k :: k in want ==> k in Projection(up, owner) && Projection(up, owner)[k] == want[k]
    ensures (forall page :: IsPage(up, owner, page) ==> Projection(Swept(up, owner, want, page), owner) == want)
            <==> |RowsOf(up, owner)| <= PAGE || KeysOf(up, owner) <= want.Keys
  {
    var all := RowsOf(up, owner);
    assert Projection(up, owner).Keys == KeysOf(up, owner);
    if |all| <= PAGE || KeysOf(up, owner) <= want.Keys {
      forall page | IsPage(up, owner, page) ensures Projection(Swept(up, owner, want, page), owner) == want {
        if |all| <= PAGE { FittingPage(up, owner, page); }
        SweptExactly(up, owner, want, page);
      }
    } else {
      var k :| k in KeysOf(up, owner) && k !in want;
      var i := TheRow(up, owner, k);
      assert |all - {i}| == |all| - 1;
      var page := SubsetOfSize(all - {i}, PAGE);
      StaleSurvives(up, owner, want, page, i);
    }
  }

  lemma StaleSurvives(up: Rows, owner: string, want: map<string, Item>, page: set<nat>, i: nat)
    requires NoDup(up) && i in RowsOf(up, owner) && i !in page && up[i].idemKey !in want
    requires page <= RowsOf(up, owner) && |page| == PAGE < |RowsOf(up, owner)|
    ensures IsPage(up, owner, page) && Projection(Swept(up, owner, want, page), owner) != want
  {
    var left := Swept(up, owner, want, page);
    assert Holds(left, i, owner, up[i].idemKey);
    assert NoDup(left) by { SweptAt(up, owner, want, page, up[i].idemKey); }
    ProjectionAt(left, owner, up[i].idemKey, i);
  }
}
