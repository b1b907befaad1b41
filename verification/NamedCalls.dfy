/** What the correlator's bounded lookup tables hold, told from what they were given: a list of pairs
    in order of arrival, of which the first 256 different keys are admitted, each with its last value. */
module NamedCalls {
  import opened Common
  import opened Events
  import opened ToolCorrelation

  /** A call and the response, or the cell, named for it. */
  type Pair = (CallId, int)

  function CallsIn(p: seq<Pair>): set<CallId> {
    if p == [] then {} else CallsIn(p[..|p| - 1]) + {p[|p| - 1].0}
  }

  /** The last value given for a call. */
  function LastFor(p: seq<Pair>, call: CallId): Option<int> {
    if p == [] then None
    else if p[|p| - 1].0 == call then Some(p[|p| - 1].1)
    else LastFor(p[..|p| - 1], call)
  }

  /** The call is one of the first 256 different ones. */
  predicate Early(p: seq<Pair>, call: CallId) {
    p != [] &&
    (Early(p[..|p| - 1], call)
     || (p[|p| - 1].0 == call && call !in CallsIn(p[..|p| - 1]) && |CallsIn(p[..|p| - 1])| < MAX_TOOL_RESPONSE_ENTRIES))
  }

  /** What a table answers for a call that was given the pairs `p`. */
  function Named(p: seq<Pair>, call: CallId): Option<int> {
    if Early(p, call) then LastFor(p, call) else None
  }

  /** The table answers as the pairs say; it holds every call while they are at most 256. */
  ghost predicate TableFits(m: map<CallId, int>, p: seq<Pair>) {
    && (forall call :: Lookup(m, call) == Named(p, call))
    && (if |CallsIn(p)| <= MAX_TOOL_RESPONSE_ENTRIES then m.Keys == CallsIn(p) else |m| == MAX_TOOL_RESPONSE_ENTRIES)
  }

  /** With at most 256 different calls, a call that was given a value is answered with its last one. */
  lemma {:induction false} FewAreAllEarly(p: seq<Pair>, call: CallId)
    requires |CallsIn(p)| <= MAX_TOOL_RESPONSE_ENTRIES
    ensures Named(p, call) == LastFor(p, call) && (LastFor(p, call).Some? <==> call in CallsIn(p))
  {
    if p != [] {
      var init, last := p[..|p| - 1], p[|p| - 1];
      SubsetSmaller(CallsIn(init), CallsIn(p));
      FewAreAllEarly(init, call);
      if last.0 !in CallsIn(init) {
        assert |CallsIn(p)| == |CallsIn(init)| + 1;
      }
    }
  }

  lemma {:induction false} EarlyIsIn(p: seq<Pair>, call: CallId)
    requires Early(p, call)
    ensures call in CallsIn(p) && LastFor(p, call).Some?
  {
    if Early(p[..|p| - 1], call) {
      EarlyIsIn(p[..|p| - 1], call);
    }
  }

  lemma NamedSnoc(p: seq<Pair>, x: Pair, call: CallId)
    ensures CallsIn(p + [x]) == CallsIn(p) + {x.0}
    ensures LastFor(p + [x], call) == if x.0 == call then Some(x.1) else LastFor(p, call)
    ensures Early(p + [x], call) <==>
            Early(p, call) || (x.0 == call && call !in CallsIn(p) && |CallsIn(p)| < MAX_TOOL_RESPONSE_ENTRIES)
  {
    assert (p + [x])[..|p|] == p;
  }

  lemma SizeOfKeys(m: map<CallId, int>, p: seq<Pair>)
    requires TableFits(m, p)
    ensures |m| < MAX_TOOL_RESPONSE_ENTRIES <==> |CallsIn(p)| < MAX_TOOL_RESPONSE_ENTRIES
    ensures |m| <= MAX_TOOL_RESPONSE_ENTRIES
  {
    assert |m| == |m.Keys|;
  }

  lemma AdmitAnswers(m: map<CallId, int>, p: seq<Pair>, x: Pair, call: CallId)
    requires TableFits(m, p)
    ensures Lookup(Admit(m, x.0, x.1), call) == Named(p + [x], call)
  {
    SizeOfKeys(m, p);
    NamedSnoc(p, x, call);
    assert Lookup(m, call) == Named(p, call) && Lookup(m, x.0) == Named(p, x.0);
    if Early(p, call) {
      EarlyIsIn(p, call);
    }
    if Early(p, x.0) {
      EarlyIsIn(p, x.0);
    }
  }

  lemma AdmitSize(m: map<CallId, int>, p: seq<Pair>, x: Pair)
    requires TableFits(m, p)
    ensures
      var m', p' := Admit(m, x.0, x.1), p + [x];
      if |CallsIn(p')| <= MAX_TOOL_RESPONSE_ENTRIES then m'.Keys == CallsIn(p') else |m'| == MAX_TOOL_RESPONSE_ENTRIES
  {
    SizeOfKeys(m, p);
    NamedSnoc(p, x, x.0);
    SubsetSmaller(CallsIn(p), CallsIn(p + [x]));
    assert Lookup(m, x.0) == Named(p, x.0);
    assert |m| == |m.Keys|;
    if x.0 in m {
      EarlyIsIn(p, x.0);
      assert CallsIn(p + [x]) == CallsIn(p);
      assert m[x.0 := x.1].Keys == m.Keys;
      assert |m[x.0 := x.1]| == |m[x.0 := x.1].Keys|;
    } else if |m| < MAX_TOOL_RESPONSE_ENTRIES {
      assert m[x.0 := x.1].Keys == m.Keys + {x.0};
    }
  }

  /** A table that admits one more pair. */
  lemma AdmitFits(m: map<CallId, int>, p: seq<Pair>, x: Pair)
    requires TableFits(m, p)
    ensures TableFits(Admit(m, x.0, x.1), p + [x])
  {
    forall call: CallId ensures Lookup(Admit(m, x.0, x.1), call) == Named(p + [x], call) {
      AdmitAnswers(m, p, x, call);
    }
    AdmitSize(m, p, x);
  }

  /** The pairs one response brings: it names each of its calls. */
  function Names(calls: seq<CallId>, r: ResponseId): seq<Pair> {
    seq(|calls|, i requires 0 <= i < |calls| => (calls[i], r))
  }

  /** A response names all of its calls, in order. */
  lemma {:induction false} AdmitAllFits(m: map<CallId, ResponseId>, p: seq<Pair>, calls: seq<CallId>, r: ResponseId)
    requires TableFits(m, p)
    ensures TableFits(AdmitAll(m, calls, r), p + Names(calls, r))
  {
    if calls == [] {
      assert p + Names(calls, r) == p;
    } else {
      var init, last := calls[..|calls| - 1], calls[|calls| - 1];
      AdmitAllFits(m, p, init, r);
      AdmitFits(AdmitAll(m, init, r), p + Names(init, r), (last, r));
      assert p + Names(calls, r) == p + Names(init, r) + [(last, r)];
    }
  }
}
