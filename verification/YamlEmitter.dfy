/**
 The emitter's control: the queue of pending events, its bounded lookahead, and the pushdown machine that
 consumes them.

 What is written is left to the scalar writers; here writing only updates `indention`, the one output flag
 the control reads.  The analysis of anchors, tags and scalars is a parameter of the emitter; that of a
 tag depends on the tag directives in force.
 */
module YamlEmitter {
  import opened Wrappers
  import opened YamlEvents

  datatype State =
    | StreamStartState | FirstDocumentStartState | DocumentStartState | DocumentContentState | DocumentEndState
    | FlowSequenceFirstItemState | FlowSequenceItemState
    | FlowMappingFirstKeyState | FlowMappingKeyState | FlowMappingSimpleValueState | FlowMappingValueState
    | BlockSequenceFirstItemState | BlockSequenceItemState
    | BlockMappingFirstKeyState | BlockMappingKeyState | BlockMappingSimpleValueState | BlockMappingValueState
    | EndState

  /** A sequencing error blames the order of events, a content error one event's data. */
  datatype Problem = Sequencing | Content

  /** The analysis of one event: whether its data may be written, and the lengths a simple key is judged by. */
  datatype Analysis = Analysis(ok: bool, anchor: nat, handle: nat, suffix: nat, value: nat, multiline: bool)

  //
  // The lookahead.
  //

  function Change(e: Event): int {
    if e.StreamStart? || e.DocumentStart? || e.SequenceStart? || e.MappingStart? then 1
    else if e.StreamEnd? || e.DocumentEnd? || e.SequenceEnd? || e.MappingEnd? then -1
    else 0
  }

  function Sum(q: seq<Event>): int {
    if q == [] then 0 else Sum(q[..|q| - 1]) + Change(q[|q| - 1])
  }

  function Lookahead(e: Event): nat {
    if e.DocumentStart? then 1 else if e.SequenceStart? then 2 else if e.MappingStart? then 3 else 0
  }

  /** Nothing to emit yet: either no event, or too few of a collection that is still open. */
  ghost predicate NeedMore(q: seq<Event>) {
    q == [] || (Lookahead(q[0]) > 0 && |q| <= Lookahead(q[0]) && forall i | 1 <= i <= |q| :: Sum(q[..i]) != 0)
  }

  predicate EmptySequenceAhead(q: seq<Event>) { |q| >= 2 && q[0].SequenceStart? && q[1].SequenceEnd? }

  predicate EmptyMappingAhead(q: seq<Event>) { |q| >= 2 && q[0].MappingStart? && q[1].MappingEnd? }

  /** Whether the next node may be a simple key, judged on the events ahead. */
  predicate SimpleKeyAhead(q: seq<Event>, a: Analysis)
    requires q != []
  {
    match q[0]
    case Alias(_) => a.anchor <= 128
    case Scalar(_, _, _, _, _, _) => !a.multiline && a.anchor + a.handle + a.suffix + a.value <= 128
    case SequenceStart(_, _, _, _) => EmptySequenceAhead(q) && a.anchor + a.handle + a.suffix <= 128
    case MappingStart(_, _, _, _) => EmptyMappingAhead(q) && a.anchor + a.handle + a.suffix <= 128
    case _ => false
  }

  const MAX_KEY := 128

  /** What a simple key must be: one line, no collection with anything in it, and all that is written of it short. */
  ghost predicate FitsKey(q: seq<Event>, a: Analysis) {
    && q != [] && IsNode(q[0])
    && !(q[0].Scalar? && a.multiline)
    && (q[0].SequenceStart? ==> 1 < |q| && q[1] == SequenceEnd)
    && (q[0].MappingStart? ==> 1 < |q| && q[1] == MappingEnd)
    && a.anchor + (if q[0].Alias? then 0 else a.handle + a.suffix) + (if q[0].Scalar? then a.value else 0) <= MAX_KEY
  }

  lemma SimpleKeyIff(q: seq<Event>, a: Analysis)
    requires q != []
    ensures SimpleKeyAhead(q, a) <==> FitsKey(q, a)
  {
  }

  /** Once no more events are needed, the checks answer as they would on the whole stream. */
  lemma LookaheadSuffices(q: seq<Event>, more: seq<Event>, a: Analysis)
    requires q != [] && !NeedMore(q)
    ensures EmptySequenceAhead(q + more) == EmptySequenceAhead(q)
    ensures EmptyMappingAhead(q + more) == EmptyMappingAhead(q)
    ensures SimpleKeyAhead(q + more, a) == SimpleKeyAhead(q, a)
  {
    if |q| == 1 {
      assert q[..1] == [q[0]] && Sum([q[0]]) == Change(q[0]);
    }
  }

  /** Some continuation of the queue would change the answer to an emptiness check. */
  ghost predicate Undecided(q: seq<Event>) {
    exists more :: EmptySequenceAhead(q + more) != EmptySequenceAhead(q) || EmptyMappingAhead(q + more) != EmptyMappingAhead(q)
  }

  /**
   The checks need exactly the event after a collection start: with it, or at any other event, no
   continuation changes an answer, so the wait at DOCUMENT-START and for the third event of a mapping is
   longer than they need; without it the emitter does wait.
   */
  lemma LookaheadNeeded(q: seq<Event>)
    requires q != []
    ensures Undecided(q) <==> |q| == 1 && (q[0].SequenceStart? || q[0].MappingStart?)
    ensures Undecided(q) ==> NeedMore(q)
  {
    if |q| == 1 && (q[0].SequenceStart? || q[0].MappingStart?) {
      var end := if q[0].SequenceStart? then SequenceEnd else MappingEnd;
      assert (q + [end])[1] == end;
      assert Undecided(q);
      forall i | 1 <= i <= 1 ensures Sum(q[..i]) != 0 { assert q[..i] == [q[0]] && Sum([q[0]]) == Change(q[0]); }
    }
  }

  //
  // Depth of nesting.
  //

  function Depth(ls: Levels): nat {
    if ls.Closed? then 0
    else Depth(ls.below) + match ls.top
      case ExpStream => 0
      case ExpDocument => 1
      case ExpRoot => 0
      case ExpDocEnd => 2
      case _ => 1
  }

  lemma DepthSteps(ls: Levels, e: Event)
    requires Step(ls, e).Some?
    ensures Depth(Step(ls, e).value) == Depth(ls) + Change(e)
  {
  }

  lemma {:induction false} DepthRuns(ls: Levels, q: seq<Event>)
    requires Run(ls, q).Some?
    ensures Depth(Run(ls, q).value) == Depth(ls) + Sum(q)
    decreases |q|
  {
    hide Step, Depth;
    if q != [] {
      var init, last := q[..|q| - 1], q[|q| - 1];
      assert q == init + [last];
      RunSnoc(ls, init, last);
      DepthRuns(ls, init);
      DepthSteps(Run(ls, init).value, last);
    }
  }

  /** A level that starts positive and never reaches zero stays positive. */
  lemma {:induction false} StaysPositive(q: seq<Event>, n: nat)
    requires q != [] && Change(q[0]) == 1 && 1 <= n <= |q|
    requires forall i | 1 <= i <= |q| :: Sum(q[..i]) != 0
    ensures Sum(q[..n]) > 0
  {
    if n == 1 {
      assert q[..1] == [q[0]] && Sum([q[0]]) == Change(q[0]);
    } else {
      StaysPositive(q, n - 1);
      assert q[..n][..n - 1] == q[..n - 1];
    }
  }

  /** Once the stream has ended nothing is held back. */
  lemma DrainsAtEnd(ls: Levels, q: seq<Event>)
    requires Run(ls, q) == Some(Closed)
    ensures NeedMore(q) <==> q == []
  {
    if q != [] && NeedMore(q) {
      assert q[..|q|] == q;
      DepthRuns(ls, q);
      StaysPositive(q, |q|);
    }
  }

  //
  // What the control state means.
  //

  predicate IsFlow(s: State) {
    s.FlowSequenceFirstItemState? || s.FlowSequenceItemState? || s.FlowMappingFirstKeyState? || s.FlowMappingKeyState?
    || s.FlowMappingSimpleValueState? || s.FlowMappingValueState?
  }

  predicate IsFirst(s: State) {
    s.FlowSequenceFirstItemState? || s.FlowMappingFirstKeyState? || s.BlockSequenceFirstItemState? || s.BlockMappingFirstKeyState?
  }

  predicate IsBlock(s: State) {
    s.BlockSequenceFirstItemState? || s.BlockSequenceItemState? || s.BlockMappingFirstKeyState? || s.BlockMappingKeyState?
    || s.BlockMappingSimpleValueState? || s.BlockMappingValueState?
  }

  predicate InNode(s: State) { IsFlow(s) || IsBlock(s) }

  /** An entered collection: its indentation has been saved. */
  predicate Entered(s: State) { InNode(s) && !IsFirst(s) }

  ghost predicate StackOk(states: seq<State>) {
    |states| >= 1 && states[0] == DocumentEndState && forall i | 1 <= i < |states| :: Entered(states[i])
  }

  function Expects(s: State, below: Levels): Levels {
    match s
    case StreamStartState => Level(ExpStream, below)
    case FirstDocumentStartState => Level(ExpDocument, below)
    case DocumentStartState => Level(ExpDocument, below)
    case DocumentContentState => Level(ExpRoot, Level(ExpDocEnd, below))
    case DocumentEndState => Level(ExpDocEnd, below)
    case FlowSequenceFirstItemState => Level(ExpItem, below)
    case FlowSequenceItemState => Level(ExpItem, below)
    case BlockSequenceFirstItemState => Level(ExpItem, below)
    case BlockSequenceItemState => Level(ExpItem, below)
    case FlowMappingFirstKeyState => Level(ExpKey, below)
    case FlowMappingKeyState => Level(ExpKey, below)
    case BlockMappingFirstKeyState => Level(ExpKey, below)
    case BlockMappingKeyState => Level(ExpKey, below)
    case FlowMappingSimpleValueState => Level(ExpValue, below)
    case FlowMappingValueState => Level(ExpValue, below)
    case BlockMappingSimpleValueState => Level(ExpValue, below)
    case BlockMappingValueState => Level(ExpValue, below)
    case EndState => below
  }

  function LevelsOf(states: seq<State>): Levels {
    if states == [] then Closed else Expects(states[|states| - 1], LevelsOf(states[..|states| - 1]))
  }

  function One(b: bool): nat { if b then 1 else 0 }

  /** Saved indentations: one per entered collection. */
  function IndentCount(states: seq<State>): nat {
    if states == [] then 0 else IndentCount(states[..|states| - 1]) + One(Entered(states[|states| - 1]))
  }

  function FlowCount(states: seq<State>): nat {
    if states == [] then 0
    else FlowCount(states[..|states| - 1]) + One(IsFlow(states[|states| - 1]) && !IsFirst(states[|states| - 1]))
  }

  /** No block collection inside a flow collection. */
  ghost predicate FlowInside(states: seq<State>, state: State) {
    && (forall i, j | 0 <= i < j < |states| :: IsFlow(states[i]) ==> IsFlow(states[j]))
    && (forall i | 0 <= i < |states| :: IsFlow(states[i]) ==> IsFlow(state))
  }

  lemma {:induction false} NoFlow(states: seq<State>)
    requires StackOk(states) && FlowCount(states) == 0
    ensures forall i | 0 <= i < |states| :: !IsFlow(states[i])
    decreases |states|
  {
    if |states| > 1 { NoFlow(states[..|states| - 1]); }
  }

  datatype Snapshot = Snapshot(state: State, states: seq<State>, indents: seq<int>, flowLevel: int)

  ghost predicate Inv(s: Snapshot) {
    && (if InNode(s.state) then StackOk(s.states) else s.states == [])
    && |s.indents| == IndentCount(s.states) + One(Entered(s.state))
    && s.flowLevel == FlowCount(s.states) + One(IsFlow(s.state) && !IsFirst(s.state))
    && FlowInside(s.states, s.state)
  }

  ghost function Open(s: Snapshot): Levels { Expects(s.state, LevelsOf(s.states)) }

  /** The outcome of giving `e` to the machine in `s`. */
  ghost predicate Consumed(s: Snapshot, e: Event, s': Snapshot, error: Option<Problem>) {
    match error
    case None => Inv(s') && Step(Open(s), e) == Some(Open(s'))
    case Some(Sequencing) => Step(Open(s), e) == None
    case Some(Content) => true
  }

  /** The outcome of emitting a node whose continuation `cont` is to follow. */
  ghost predicate NodeConsumed(s: Snapshot, cont: State, e: Event, s': Snapshot, error: Option<Problem>) {
    match error
    case None => Inv(s') && IsNode(e) && Open(s') == Opening(e, Expects(cont, LevelsOf(s.states)))
    case Some(Sequencing) => !IsNode(e)
    case Some(Content) => true
  }

  /** After a leaf the machine is at the continuation; after a collection start the continuation is on the stack. */
  ghost predicate Continues(s: Snapshot, cont: State, e: Event, s': Snapshot) {
    if IsLeaf(e) then s'.state == cont && s'.states == s.states else s'.states == s.states + [cont]
  }

  lemma ContinuesFrom(s: Snapshot, m: Snapshot, cont: State, e: Event, s': Snapshot)
    requires m.states == s.states
    ensures Continues(m, cont, e, s') ==> Continues(s, cont, e, s')
  {
  }

  /** `cont` is where a whole node read in state `s` leads. */
  predicate Leads(s: State, cont: State) {
    match cont
    case FlowSequenceItemState => s.FlowSequenceFirstItemState? || s.FlowSequenceItemState?
    case BlockSequenceItemState => s.BlockSequenceFirstItemState? || s.BlockSequenceItemState?
    case FlowMappingSimpleValueState => s.FlowMappingFirstKeyState? || s.FlowMappingKeyState?
    case FlowMappingValueState => s.FlowMappingFirstKeyState? || s.FlowMappingKeyState?
    case BlockMappingSimpleValueState => s.BlockMappingFirstKeyState? || s.BlockMappingKeyState?
    case BlockMappingValueState => s.BlockMappingFirstKeyState? || s.BlockMappingKeyState?
    case FlowMappingKeyState => s.FlowMappingSimpleValueState? || s.FlowMappingValueState?
    case BlockMappingKeyState => s.BlockMappingSimpleValueState? || s.BlockMappingValueState?
    case _ => false
  }

  lemma NodeLeads(s: Snapshot, m: Snapshot, cont: State, e: Event, s': Snapshot, error: Option<Problem>)
    requires NodeConsumed(m, cont, e, s', error) && m.states == s.states && Leads(s.state, cont)
    requires Expects(s.state, Closed).top.ExpItem? ==> !e.SequenceEnd?
    requires Expects(s.state, Closed).top.ExpKey? ==> !e.MappingEnd?
    ensures Consumed(s, e, s', error)
  {
    hide Inv, LevelsOf;
  }

  /** Transitions outside documents. */
  lemma Moved(s: Snapshot, e: Event, s': Snapshot)
    requires Inv(s) && !InNode(s.state) && s' == s.(state := s'.state)
    requires match s.state
             case StreamStartState => e.StreamStart? && s'.state.FirstDocumentStartState?
             case FirstDocumentStartState =>
               (e.DocumentStart? && s'.state.DocumentContentState?) || (e.StreamEnd? && s'.state.EndState?)
             case DocumentStartState =>
               (e.DocumentStart? && s'.state.DocumentContentState?) || (e.StreamEnd? && s'.state.EndState?)
             case DocumentEndState => e.DocumentEnd? && s'.state.DocumentStartState?
             case _ => false
    ensures Consumed(s, e, s', None)
  {
  }

  lemma Refused(s: Snapshot, e: Event, s': Snapshot)
    requires Inv(s)
    requires match s.state
             case StreamStartState => !e.StreamStart?
             case FirstDocumentStartState => !e.DocumentStart? && !e.StreamEnd?
             case DocumentStartState => !e.DocumentStart? && !e.StreamEnd?
             case DocumentEndState => !e.DocumentEnd?
             case EndState => true
             case _ => false
    ensures Consumed(s, e, s', Some(Sequencing))
  {
  }

  lemma RootPushed(s: Snapshot)
    requires Inv(s) && s.state.DocumentContentState?
    ensures s.states == [] && s.states + [DocumentEndState] == [DocumentEndState]
    ensures StackOk([DocumentEndState]) && |s.indents| == IndentCount([DocumentEndState])
    ensures s.flowLevel == FlowCount([DocumentEndState])
  {
    assert [DocumentEndState][..0] == [];
  }

  lemma RootConsumed(s: Snapshot, m: Snapshot, e: Event, s': Snapshot, error: Option<Problem>)
    requires s.state.DocumentContentState? && s.states == [] && m.states == [DocumentEndState]
    requires error.None? ==> Inv(s') && IsNode(e) && Open(s') == Opening(e, LevelsOf(m.states))
    requires error == Some(Sequencing) ==> !IsNode(e)
    ensures Consumed(s, e, s', error)
  {
    hide Inv;
    assert [DocumentEndState][..0] == [];
  }

  lemma Started(s: Snapshot, e: Event)
    requires StackOk(s.states) && |s.indents| == IndentCount(s.states) && s.flowLevel == FlowCount(s.states)
    requires IsFirst(s.state) && FlowInside(s.states, s.state)
    requires e.SequenceStart? ==> s.state.FlowSequenceFirstItemState? || s.state.BlockSequenceFirstItemState?
    requires e.MappingStart? ==> s.state.FlowMappingFirstKeyState? || s.state.BlockMappingFirstKeyState?
    requires e.SequenceStart? || e.MappingStart?
    ensures Inv(s) && Open(s) == Opening(e, LevelsOf(s.states))
  {
    hide LevelsOf, StackOk, IndentCount, FlowCount, FlowInside;
  }

  lemma CollectionClosed(s: Snapshot, s': Snapshot, e: Event)
    requires Inv(s') && Open(s') == LevelsOf(s.states)
    requires e.SequenceEnd? || e.MappingEnd?
    requires Expects(s.state, Closed).Level?
    requires Expects(s.state, Closed).top == (if e.SequenceEnd? then ExpItem else ExpKey)
    ensures Consumed(s, e, s', None)
  {
    hide Inv, LevelsOf;
  }

  predicate Known(ds: seq<TagDirective>, handle: Bytes) { exists i :: 0 <= i < |ds| && ds[i].handle == handle }

  /** Each of the first `n` directives has a handle that is not declared yet, by the others before it either. */
  ghost predicate AllNew(declared: seq<TagDirective>, ds: seq<TagDirective>, n: nat)
    requires n <= |ds|
  {
    forall i | 0 <= i < n :: !Known(declared + ds[..i], ds[i].handle)
  }

  lemma NoneNew(declared: seq<TagDirective>, ds: seq<TagDirective>)
    ensures AllNew(declared, ds, 0)
  {
  }

  lemma NewStep(declared: seq<TagDirective>, ds: seq<TagDirective>, n: nat)
    requires n < |ds| && AllNew(declared, ds, n)
    ensures !Known(declared + ds[..n], ds[n].handle) ==> AllNew(declared, ds, n + 1)
  {
    hide Known;
  }

  lemma NewFails(declared: seq<TagDirective>, ds: seq<TagDirective>, n: nat)
    requires n < |ds| && Known(declared + ds[..n], ds[n].handle)
    ensures !AllNew(declared, ds, |ds|)
  {
    hide Known;
  }

  lemma StillKnown(a: seq<TagDirective>, b: seq<TagDirective>, handle: Bytes)
    requires Known(a, handle) && a <= b
    ensures Known(b, handle)
  {
    var i :| 0 <= i < |a| && a[i].handle == handle;
    assert b[i] == a[i];
  }

  /** What holds inside a collection before a continuation is pushed. */
  lemma InsideCounts(s: Snapshot, cont: State)
    requires Inv(s) && Entered(s.state) && Entered(cont) && IsFlow(cont) == IsFlow(s.state)
    ensures StackOk(s.states) && FlowInside(s.states, cont)
    ensures |s.indents| == IndentCount(s.states) + 1 && s.flowLevel == FlowCount(s.states) + One(IsFlow(cont))
  {
    hide StackOk, IndentCount, FlowCount;
  }

  class Emitter {
    const canonical: bool
    const analysis: (Event, seq<TagDirective>) -> Analysis
    var bestIndent: int
    var events: seq<Event>
    var head: nat
    var state: State
    var states: seq<State>
    var indent: int
    var indents: seq<int>
    var flowLevel: int
    var mappingContext: bool
    var simpleKeyContext: bool
    var indention: bool
    var tagDirectives: seq<TagDirective>
    var error: Option<Problem>

    ghost function View(): Snapshot
      reads this
    {
      Snapshot(state, states, indents, flowLevel)
    }

    /** The events not yet emitted. */
    ghost function Queue(): seq<Event>
      requires head <= |events|
      reads this
    {
      events[head..]
    }

    /**
     Between calls: without error the machine stands where the recogniser stands after the emitted events and
     more events are needed; a sequencing error marks the first event the recogniser refuses.
     */
    ghost predicate Valid()
      reads this
    {
      && head <= |events|
      && match error
         case None => Inv(View()) && Run(START, events[..head]) == Some(Open(View())) && NeedMore(Queue())
         case Some(Sequencing) => head < |events| && Run(START, events[..head + 1]) == None
         case Some(Content) => head < |events| && Run(START, events[..head]).Some?
    }

    constructor (canonical: bool, analysis: (Event, seq<TagDirective>) -> Analysis, bestIndent: int)
      ensures Valid() && error.None? && events == [] && head == 0
      ensures this.canonical == canonical && this.analysis == analysis
    {
      this.canonical, this.analysis, this.bestIndent := canonical, analysis, bestIndent;
      events, head, state, states, error := [], 0, StreamStartState, [], None;
      indent, indents, flowLevel := 0, [], 0;
      mappingContext, simpleKeyContext, indention, tagDirectives := false, false, false, [];
    }

    method NeedMoreEvents() returns (need: bool)
      requires head <= |events|
      ensures need == NeedMore(Queue())
      ensures !need ==> head < |events|
    {
      if head == |events| { return true; }
      assert Queue()[0] == events[head];
      var accumulate := Lookahead(events[head]);
      if accumulate == 0 { return false; }
      if |events| - head > accumulate { return false; }
      var level, i := 0, head;
      while i < |events|
        invariant head <= i <= |events|
        invariant level == Sum(Queue()[..i - head])
        invariant forall k | 1 <= k <= i - head :: Sum(Queue()[..k]) != 0
      {
        level := level + Change(events[i]);
        assert Queue()[..i + 1 - head][..i - head] == Queue()[..i - head];
        if level == 0 {
          assert Sum(Queue()[..i + 1 - head]) == 0;
          return false;
        }
        i := i + 1;
      }
      return true;
    }

    /** Emit an event: queue it, then consume queued events for as long as no more are needed. */
    method Emit(e: Event) returns (ok: bool)
      requires Valid() && error.None?
      modifies this
      ensures Valid() && (ok <==> error.None?)
      ensures events == old(events) + [e]
      ensures Run(START, events).Some? ==> error != Some(Sequencing)
      ensures ok && Run(START, events) == Some(Closed) ==>
                Queue() == [] && state.EndState? && states == [] && indents == [] && flowLevel == 0
    {
      hide Inv, LevelsOf, NeedMore, Run;
      events := events + [e];
      assert events[..head] == old(events)[..head];
      var need := NeedMoreEvents();
      while !need
        invariant head <= |events| && error.None? && events == old(events) + [e]
        invariant Inv(View()) && Run(START, events[..head]) == Some(Open(View()))
        invariant need == NeedMore(Queue()) && (!need ==> head < |events|)
        decreases |events| - head
      {
        EmitHead();
        if error.Some? {
          AcceptedPrefix(events, head + 1);
          return false;
        }
        need := NeedMoreEvents();
      }
      AtEnd();
      return true;
    }

    /** Consume the event at the head of the queue. */
    method EmitHead()
      requires head < |events| && error.None? && !NeedMore(Queue())
      requires Inv(View()) && Run(START, events[..head]) == Some(Open(View()))
      modifies this`head, this`bestIndent, this`state, this`states, this`indent, this`indents, this`flowLevel,
               this`mappingContext, this`simpleKeyContext, this`indention, this`tagDirectives, this`error
      ensures match error
              case None => head == old(head) + 1 && Inv(View()) && Run(START, events[..head]) == Some(Open(View()))
              case Some(Sequencing) => head == old(head) && Run(START, events[..head + 1]) == None
              case Some(Content) => head == old(head)
    {
      hide Inv, LevelsOf, NeedMore, Run, Step, Expects;
      RunSnoc(START, events[..head], events[head]);
      assert events[..head] + [events[head]] == events[..head + 1];
      if !analysis(events[head], tagDirectives).ok {
        error := Some(Content);
        return;
      }
      StateMachine(events[head]);
      if error.None? { head := head + 1; }
    }

    lemma AtEnd()
      requires Valid() && error.None?
      ensures Run(START, events) == Some(Closed) ==>
                Queue() == [] && state.EndState? && states == [] && indents == [] && flowLevel == 0
    {
      if Run(START, events) == Some(Closed) {
        assert events == events[..head] + Queue();
        RunConcat(START, events[..head], Queue());
        DrainsAtEnd(Open(View()), Queue());
        assert Open(View()) == Closed;
      }
    }

    method StateMachine(e: Event)
      requires Inv(View()) && error.None? && head < |events| && events[head] == e && !NeedMore(Queue())
      modifies this`bestIndent, this`state, this`states, this`indent, this`indents, this`flowLevel, this`mappingContext, this`simpleKeyContext, this`indention, this`tagDirectives, this`error
      ensures Consumed(old(View()), e, View(), error)
    {
      hide Inv, LevelsOf, Consumed, NeedMore;
      match state {
        case StreamStartState => EmitStreamStart(e);
        case FirstDocumentStartState => EmitDocumentStart(e, true);
        case DocumentStartState => EmitDocumentStart(e, false);
        case DocumentContentState => EmitDocumentContent(e);
        case DocumentEndState => EmitDocumentEnd(e);
        case FlowSequenceFirstItemState => EmitFlowSequenceItem(e, true);
        case FlowSequenceItemState => EmitFlowSequenceItem(e, false);
        case FlowMappingFirstKeyState => EmitFlowMappingKey(e, true);
        case FlowMappingKeyState => EmitFlowMappingKey(e, false);
        case FlowMappingSimpleValueState => EmitFlowMappingValue(e, true);
        case FlowMappingValueState => EmitFlowMappingValue(e, false);
        case BlockSequenceFirstItemState => EmitBlockSequenceItem(e, true);
        case BlockSequenceItemState => EmitBlockSequenceItem(e, false);
        case BlockMappingFirstKeyState => EmitBlockMappingKey(e, true);
        case BlockMappingKeyState => EmitBlockMappingKey(e, false);
        case BlockMappingSimpleValueState => EmitBlockMappingValue(e, true);
        case BlockMappingValueState => EmitBlockMappingValue(e, false);
        case EndState =>
          error := Some(Sequencing);
          Refused(old(View()), e, View());
      }
    }

    method EmitStreamStart(e: Event)
      requires Inv(View()) && error.None? && state.StreamStartState?
      modifies this`state, this`bestIndent, this`indent, this`indention, this`error
      ensures Consumed(old(View()), e, View(), error)
    {
      hide Consumed, Inv;
      if !e.StreamStart? {
        error := Some(Sequencing);
        Refused(old(View()), e, View());
        return;
      }
      if bestIndent < 2 || bestIndent > 9 { bestIndent := 2; }
      indent := -1;
      indention := true;
      state := FirstDocumentStartState;
      Moved(old(View()), e, View());
    }

    method EmitDocumentStart(e: Event, first: bool)
      requires Inv(View()) && error.None? && state == if first then FirstDocumentStartState else DocumentStartState
      modifies this`state, this`indention, this`tagDirectives, this`error
      ensures Consumed(old(View()), e, View(), error)
    {
      hide Inv;
      if e.DocumentStart? {
        AppendTagDirectives(e);
        if error.Some? { return; }
        if !(e.implicit && first && !canonical && e.version.None? && e.tagDirectives == []) {
          // "---"
          indention := canonical;
        }
        state := DocumentContentState;
        Moved(old(View()), e, View());
      } else if e.StreamEnd? {
        state := EndState;
        Moved(old(View()), e, View());
      } else {
        error := Some(Sequencing);
        Refused(old(View()), e, View());
      }
    }

    /** Directives of the document, whose handles must be new, then the defaults that are still missing. */
    method AppendTagDirectives(e: Event)
      requires e.DocumentStart? && error.None?
      modifies this`tagDirectives, this`error
      ensures error.None? || error == Some(Content)
      ensures error.None? <==>
                (e.version.None? || e.version.value == (1, 1)) && AllNew(old(tagDirectives), e.tagDirectives, |e.tagDirectives|)
      ensures error.None? ==> old(tagDirectives) + e.tagDirectives <= tagDirectives
      ensures error.None? ==> forall i | 0 <= i < |DEFAULT_TAG_DIRECTIVES| :: Known(tagDirectives, DEFAULT_TAG_DIRECTIVES[i].handle)
      ensures error.None? ==> forall i | |old(tagDirectives)| + |e.tagDirectives| <= i < |tagDirectives| ::
                                tagDirectives[i] in DEFAULT_TAG_DIRECTIVES
    {
      hide Known, AllNew;
      NoneNew(tagDirectives, e.tagDirectives);
      if e.version.Some? && e.version.value != (1, 1) {
        error := Some(Content);
        return;
      }
      var i := 0;
      assert tagDirectives + e.tagDirectives[..0] == tagDirectives;
      while i < |e.tagDirectives|
        invariant error.None? && 0 <= i <= |e.tagDirectives|
        invariant tagDirectives == old(tagDirectives) + e.tagDirectives[..i]
        invariant AllNew(old(tagDirectives), e.tagDirectives, i)
      {
        NewStep(old(tagDirectives), e.tagDirectives, i);
        AppendTagDirective(e.tagDirectives[i], false);
        if error.Some? {
          NewFails(old(tagDirectives), e.tagDirectives, i);
          return;
        }
        assert e.tagDirectives[..i + 1] == e.tagDirectives[..i] + [e.tagDirectives[i]];
        i := i + 1;
      }
      assert e.tagDirectives[..i] == e.tagDirectives;
      AppendDefaults();
    }

    method AppendDefaults()
      requires error.None?
      modifies this`tagDirectives, this`error
      ensures error.None? && old(tagDirectives) <= tagDirectives
      ensures forall i | 0 <= i < |DEFAULT_TAG_DIRECTIVES| :: Known(tagDirectives, DEFAULT_TAG_DIRECTIVES[i].handle)
      ensures forall i | |old(tagDirectives)| <= i < |tagDirectives| :: tagDirectives[i] in DEFAULT_TAG_DIRECTIVES
    {
      hide Known;
      var i := 0;
      while i < |DEFAULT_TAG_DIRECTIVES|
        invariant error.None? && 0 <= i <= |DEFAULT_TAG_DIRECTIVES| && old(tagDirectives) <= tagDirectives
        invariant forall k | 0 <= k < i :: Known(tagDirectives, DEFAULT_TAG_DIRECTIVES[k].handle)
        invariant forall k | |old(tagDirectives)| <= k < |tagDirectives| :: tagDirectives[k] in DEFAULT_TAG_DIRECTIVES
      {
        ghost var before := tagDirectives;
        AppendTagDirective(DEFAULT_TAG_DIRECTIVES[i], true);
        forall k | 0 <= k < i ensures Known(tagDirectives, DEFAULT_TAG_DIRECTIVES[k].handle) {
          StillKnown(before, tagDirectives, DEFAULT_TAG_DIRECTIVES[k].handle);
        }
        i := i + 1;
      }
    }

    method AppendTagDirective(value: TagDirective, allowDuplicates: bool)
      requires error.None?
      modifies this`tagDirectives, this`error
      ensures error.None? || error == Some(Content)
      ensures error.None? <==> allowDuplicates || !Known(old(tagDirectives), value.handle)
      ensures tagDirectives == if Known(old(tagDirectives), value.handle) then old(tagDirectives) else old(tagDirectives) + [value]
      ensures error.None? ==> Known(tagDirectives, value.handle)
    {
      var i := 0;
      while i < |tagDirectives|
        invariant 0 <= i <= |tagDirectives| && unchanged(this)
        invariant forall j | 0 <= j < i :: tagDirectives[j].handle != value.handle
      {
        if tagDirectives[i].handle == value.handle {
          if !allowDuplicates {
            error := Some(Content);
          }
          return;
        }
        i := i + 1;
      }
      tagDirectives := tagDirectives + [value];
      assert tagDirectives[|tagDirectives| - 1].handle == value.handle;
    }

    method EmitDocumentContent(e: Event)
      requires Inv(View()) && error.None? && state.DocumentContentState?
      requires head < |events| && events[head] == e && !NeedMore(Queue())
      modifies this`state, this`states, this`indent, this`indents, this`mappingContext, this`simpleKeyContext, this`indention, this`error
      ensures Consumed(old(View()), e, View(), error)
    {
      hide Consumed, LevelsOf, Inv, StackOk, IndentCount, FlowCount, Opening, Expects, NeedMore;
      RootPushed(View());
      states := states + [DocumentEndState];
      ghost var m := View();
      EmitNode(e, false, false);
      RootConsumed(old(View()), m, e, View(), error);
    }

    method EmitDocumentEnd(e: Event)
      requires Inv(View()) && error.None? && state.DocumentEndState?
      modifies this`state, this`indention, this`tagDirectives, this`error
      ensures Consumed(old(View()), e, View(), error)
    {
      hide Consumed, Inv;
      if !e.DocumentEnd? {
        error := Some(Sequencing);
        Refused(old(View()), e, View());
        return;
      }
      indention := true;
      state := DocumentStartState;
      tagDirectives := [];
      Moved(old(View()), e, View());
    }

    method IncreaseIndent(flow: bool, indentless: bool)
      modifies this`indent, this`indents
      ensures indents == old(indents) + [old(indent)]
      ensures indent == if old(indent) < 0 then (if flow then bestIndent else 0)
                        else if indentless then old(indent) else old(indent) + bestIndent
    {
      indents := indents + [indent];
      if indent < 0 {
        indent := if flow then bestIndent else 0;
      } else if !indentless {
        indent := indent + bestIndent;
      }
    }

    method RestoreIndent()
      requires |indents| > 0
      modifies this`indent, this`indents
      ensures indents == old(indents)[..|old(indents)| - 1] && indent == old(indents)[|old(indents)| - 1]
    {
      indent := indents[|indents| - 1];
      indents := indents[..|indents| - 1];
    }

    /** Pop the continuation of a node. */
    method Pop()
      requires StackOk(states) && |indents| == IndentCount(states) && flowLevel == FlowCount(states)
      requires forall i, j | 0 <= i < j < |states| :: IsFlow(states[i]) ==> IsFlow(states[j])
      modifies this`state, this`states
      ensures Inv(View()) && Open(View()) == LevelsOf(old(states))
      ensures states == old(states)[..|old(states)| - 1] && state == old(states)[|old(states)| - 1]
    {
      state := states[|states| - 1];
      states := states[..|states| - 1];
    }

    method Push(s: State)
      requires StackOk(states) && Entered(s) && FlowInside(states, s)
      modifies this`states
      ensures states == old(states) + [s]
      ensures StackOk(states) && LevelsOf(states) == Expects(s, LevelsOf(old(states)))
      ensures IndentCount(states) == IndentCount(old(states)) + 1
      ensures FlowCount(states) == FlowCount(old(states)) + One(IsFlow(s))
      ensures forall i, j | 0 <= i < j < |states| :: IsFlow(states[i]) ==> IsFlow(states[j])
    {
      states := states + [s];
      assert states[..|states| - 1] == old(states);
    }

    /** Leave the collection that is current. */
    method LeaveCollection()
      requires Entered(state) && Inv(View())
      modifies this`state, this`states, this`indent, this`indents, this`flowLevel
      ensures Inv(View()) && Open(View()) == LevelsOf(old(states))
    {
      if IsFlow(state) { flowLevel := flowLevel - 1; }
      RestoreIndent();
      Pop();
    }

    /** The first visit to a collection: save the indentation. */
    method EnterCollection(entered: State, indentless: bool)
      requires Inv(View()) && IsFirst(state) && Entered(entered) && IsFlow(entered) == IsFlow(state)
      modifies this`state, this`indent, this`indents, this`flowLevel, this`indention
      ensures Inv(View()) && state == entered
    {
      if IsFlow(state) {
        indention := false;
        IncreaseIndent(true, false);
        flowLevel := flowLevel + 1;
      } else {
        IncreaseIndent(false, indentless);
      }
      state := entered;
    }

    method EmitFlowSequenceItem(e: Event, first: bool)
      requires Inv(View()) && error.None? && state == if first then FlowSequenceFirstItemState else FlowSequenceItemState
      requires head < |events| && events[head] == e && !NeedMore(Queue())
      modifies this`state, this`states, this`indent, this`indents, this`flowLevel, this`mappingContext, this`simpleKeyContext, this`indention, this`error
      ensures Consumed(old(View()), e, View(), error)
      ensures error.None? && !e.SequenceEnd? ==>
                Continues(old(View()), FlowSequenceItemState, e, View()) && !mappingContext && !simpleKeyContext
    {
      hide Inv, LevelsOf, Consumed, NodeConsumed, Continues, NeedMore;
      ghost var s := View();
      if first { EnterCollection(FlowSequenceItemState, false); }
      if e.SequenceEnd? {
        LeaveCollection();
        indention := false;
        CollectionClosed(s, View(), e);
        return;
      }
      if !first { indention := false; }
      if canonical { indention := true; }
      ghost var m := View();
      EmitWithContinuation(e, FlowSequenceItemState, false, false);
      NodeLeads(s, m, FlowSequenceItemState, e, View(), error);
      ContinuesFrom(s, m, FlowSequenceItemState, e, View());
    }

    method EmitFlowMappingKey(e: Event, first: bool)
      requires Inv(View()) && error.None? && state == if first then FlowMappingFirstKeyState else FlowMappingKeyState
      requires head < |events| && events[head] == e && !NeedMore(Queue())
      modifies this`state, this`states, this`indent, this`indents, this`flowLevel, this`mappingContext, this`simpleKeyContext, this`indention, this`error
      ensures Consumed(old(View()), e, View(), error)
      ensures error.None? && !e.MappingEnd? ==>
                var simple := !canonical && SimpleKeyAhead(Queue(), analysis(e, tagDirectives));
                && Continues(old(View()), if simple then FlowMappingSimpleValueState else FlowMappingValueState, e, View())
                && mappingContext && simpleKeyContext == simple
      ensures error.None? && !e.MappingEnd? ==> (simpleKeyContext <==> !canonical && FitsKey(Queue(), analysis(e, tagDirectives)))
    {
      hide Inv, LevelsOf, Consumed, NodeConsumed, NeedMore, SimpleKeyAhead, Continues, FitsKey;
      ghost var s := View();
      if first { EnterCollection(FlowMappingKeyState, false); }
      if e.MappingEnd? {
        LeaveCollection();
        indention := false;
        CollectionClosed(s, View(), e);
        return;
      }
      if !first { indention := false; }
      if canonical { indention := true; }
      var simple := CheckSimpleKey();
      SimpleKeyIff(Queue(), analysis(e, tagDirectives));
      ghost var m := View();
      if !canonical && simple {
        EmitWithContinuation(e, FlowMappingSimpleValueState, true, true);
        NodeLeads(s, m, FlowMappingSimpleValueState, e, View(), error);
        ContinuesFrom(s, m, FlowMappingSimpleValueState, e, View());
        return;
      }
      indention := false;
      EmitWithContinuation(e, FlowMappingValueState, true, false);
      NodeLeads(s, m, FlowMappingValueState, e, View(), error);
      ContinuesFrom(s, m, FlowMappingValueState, e, View());
    }

    method EmitFlowMappingValue(e: Event, simple: bool)
      requires Inv(View()) && error.None? && state == if simple then FlowMappingSimpleValueState else FlowMappingValueState
      requires head < |events| && events[head] == e && !NeedMore(Queue())
      modifies this`state, this`states, this`indent, this`indents, this`mappingContext, this`simpleKeyContext, this`indention, this`error
      ensures Consumed(old(View()), e, View(), error)
      ensures error.None? ==> Continues(old(View()), FlowMappingKeyState, e, View()) && mappingContext && !simpleKeyContext
    {
      hide Inv, LevelsOf, Consumed, NodeConsumed, NeedMore;
      indention := false;
      ghost var s := View();
      EmitWithContinuation(e, FlowMappingKeyState, true, false);
      NodeLeads(s, s, FlowMappingKeyState, e, View(), error);
    }

    method EmitBlockSequenceItem(e: Event, first: bool)
      requires Inv(View()) && error.None? && state == if first then BlockSequenceFirstItemState else BlockSequenceItemState
      requires head < |events| && events[head] == e && !NeedMore(Queue())
      modifies this`state, this`states, this`indent, this`indents, this`flowLevel, this`mappingContext, this`simpleKeyContext, this`indention, this`error
      ensures Consumed(old(View()), e, View(), error)
      ensures error.None? && !e.SequenceEnd? ==>
                Continues(old(View()), BlockSequenceItemState, e, View()) && !mappingContext && !simpleKeyContext
    {
      hide Inv, LevelsOf, Consumed, NodeConsumed, Continues, NeedMore;
      ghost var s := View();
      if first { EnterCollection(BlockSequenceItemState, mappingContext && !indention); }
      if e.SequenceEnd? {
        LeaveCollection();
        CollectionClosed(s, View(), e);
        return;
      }
      indention := true;
      ghost var m := View();
      EmitWithContinuation(e, BlockSequenceItemState, false, false);
      NodeLeads(s, m, BlockSequenceItemState, e, View(), error);
      ContinuesFrom(s, m, BlockSequenceItemState, e, View());
    }

    method EmitBlockMappingKey(e: Event, first: bool)
      requires Inv(View()) && error.None? && state == if first then BlockMappingFirstKeyState else BlockMappingKeyState
      requires head < |events| && events[head] == e && !NeedMore(Queue())
      modifies this`state, this`states, this`indent, this`indents, this`flowLevel, this`mappingContext, this`simpleKeyContext, this`indention, this`error
      ensures Consumed(old(View()), e, View(), error)
      ensures error.None? && !e.MappingEnd? ==>
                var simple := SimpleKeyAhead(Queue(), analysis(e, tagDirectives));
                && Continues(old(View()), if simple then BlockMappingSimpleValueState else BlockMappingValueState, e, View())
                && mappingContext && simpleKeyContext == simple
      ensures error.None? && !e.MappingEnd? ==> (simpleKeyContext <==> FitsKey(Queue(), analysis(e, tagDirectives)))
    {
      hide Inv, LevelsOf, Consumed, NodeConsumed, NeedMore, SimpleKeyAhead, Continues, FitsKey;
      ghost var s := View();
      if first { EnterCollection(BlockMappingKeyState, false); }
      if e.MappingEnd? {
        LeaveCollection();
        CollectionClosed(s, View(), e);
        return;
      }
      indention := true;
      var simple := CheckSimpleKey();
      SimpleKeyIff(Queue(), analysis(e, tagDirectives));
      ghost var m := View();
      if simple {
        EmitWithContinuation(e, BlockMappingSimpleValueState, true, true);
        NodeLeads(s, m, BlockMappingSimpleValueState, e, View(), error);
        ContinuesFrom(s, m, BlockMappingSimpleValueState, e, View());
        return;
      }
      EmitWithContinuation(e, BlockMappingValueState, true, false);
      NodeLeads(s, m, BlockMappingValueState, e, View(), error);
      ContinuesFrom(s, m, BlockMappingValueState, e, View());
    }

    method EmitBlockMappingValue(e: Event, simple: bool)
      requires Inv(View()) && error.None? && state == if simple then BlockMappingSimpleValueState else BlockMappingValueState
      requires head < |events| && events[head] == e && !NeedMore(Queue())
      modifies this`state, this`states, this`indent, this`indents, this`mappingContext, this`simpleKeyContext, this`indention, this`error
      ensures Consumed(old(View()), e, View(), error)
      ensures error.None? ==> Continues(old(View()), BlockMappingKeyState, e, View()) && mappingContext && !simpleKeyContext
    {
      hide Inv, LevelsOf, Consumed, NodeConsumed, NeedMore;
      indention := !simple;
      ghost var s := View();
      EmitWithContinuation(e, BlockMappingKeyState, true, false);
      NodeLeads(s, s, BlockMappingKeyState, e, View(), error);
    }

    /** Push the continuation and emit the node. */
    method EmitWithContinuation(e: Event, cont: State, mapping: bool, simpleKey: bool)
      requires Inv(View()) && error.None? && Entered(state) && Entered(cont) && IsFlow(cont) == IsFlow(state)
      requires head < |events| && events[head] == e && !NeedMore(Queue())
      requires simpleKey ==> FitsKey(Queue(), analysis(e, tagDirectives))
      modifies this`state, this`states, this`indent, this`indents, this`mappingContext, this`simpleKeyContext, this`indention, this`error
      ensures NodeConsumed(old(View()), cont, e, View(), error)
      ensures error.None? ==> Continues(old(View()), cont, e, View())
      ensures mappingContext == mapping && simpleKeyContext == simpleKey
    {
      hide LevelsOf, IndentCount, FlowCount, StackOk, Expects, FlowInside, Opening, NeedMore, FitsKey;
      InsideCounts(View(), cont);
      Push(cont);
      assert (old(states) + [cont])[..|old(states)|] == old(states);
      EmitNode(e, mapping, simpleKey);
    }

    /** Emit a node whose continuation is on the stack. */
    method EmitNode(e: Event, mapping: bool, simpleKey: bool)
      requires StackOk(states) && |indents| == IndentCount(states) && flowLevel == FlowCount(states) && error.None?
      requires forall i, j | 0 <= i < j < |states| :: IsFlow(states[i]) ==> IsFlow(states[j])
      requires head < |events| && events[head] == e && !NeedMore(Queue())
      requires simpleKey ==> FitsKey(Queue(), analysis(e, tagDirectives))
      modifies this`state, this`states, this`indent, this`indents, this`mappingContext, this`simpleKeyContext, this`indention, this`error
      ensures error.None? ==> Inv(View()) && IsNode(e) && Open(View()) == Opening(e, LevelsOf(old(states)))
      ensures error == Some(Sequencing) ==> !IsNode(e)
      ensures error.None? && IsLeaf(e) ==> states == old(states)[..|old(states)| - 1] && state == old(states)[|old(states)| - 1]
      ensures error.None? && !IsLeaf(e) ==> states == old(states)
      ensures mappingContext == mapping && simpleKeyContext == simpleKey
    {
      hide LevelsOf, IndentCount, Expects, NeedMore, FitsKey;
      mappingContext, simpleKeyContext := mapping, simpleKey;
      match e {
        case Alias(_) =>
          indention := false;
          Pop();
        case Scalar(_, _, _, _, _, _) => EmitScalar(e);
        case SequenceStart(_, _, _, _) => EmitCollectionStart(e);
        case MappingStart(_, _, _, _) => EmitCollectionStart(e);
        case _ => error := Some(Sequencing);
      }
    }

    method EmitScalar(e: Event)
      requires StackOk(states) && |indents| == IndentCount(states) && flowLevel == FlowCount(states) && error.None?
      requires forall i, j | 0 <= i < j < |states| :: IsFlow(states[i]) ==> IsFlow(states[j])
      requires e.Scalar?
      modifies this`state, this`states, this`indent, this`indents, this`indention, this`error
      ensures error.None? ==> Inv(View()) && Open(View()) == LevelsOf(old(states))
      ensures error != Some(Sequencing)
      ensures error.None? ==> states == old(states)[..|old(states)| - 1] && state == old(states)[|old(states)| - 1]
      ensures indents == old(indents)
    {
      hide LevelsOf, IndentCount, FlowCount, Inv, StackOk;
      var a := analysis(e, tagDirectives);
      if a.handle == 0 && a.suffix == 0 && !e.implicit && !e.quotedImplicit {
        error := Some(Content);
        return;
      }
      IncreaseIndent(true, false);
      indention := false;
      RestoreIndent();
      assert indents == old(indents);
      Pop();
    }

    /** SEQUENCE-START or MAPPING-START: flow style inside flow context, on request, or when empty. */
    method EmitCollectionStart(e: Event)
      requires StackOk(states) && |indents| == IndentCount(states) && flowLevel == FlowCount(states) && error.None?
      requires forall i, j | 0 <= i < j < |states| :: IsFlow(states[i]) ==> IsFlow(states[j])
      requires e.SequenceStart? || e.MappingStart?
      requires head < |events| && events[head] == e && !NeedMore(Queue())
      modifies this`state, this`indention
      ensures Inv(View()) && Open(View()) == Opening(e, LevelsOf(states))
      ensures forall more :: IsFlow(state) <==>
                flowLevel > 0 || canonical || e.collectionStyle.Flow?
                || EmptySequenceAhead(Queue() + more) || EmptyMappingAhead(Queue() + more)
    {
      hide LevelsOf, Inv, IndentCount, StackOk, Expects, NeedMore;
      var empty := CheckEmptyCollection();
      ghost var q := Queue();
      forall more ensures EmptySequenceAhead(q + more) == EmptySequenceAhead(q) && EmptyMappingAhead(q + more) == EmptyMappingAhead(q) {
        LookaheadSuffices(q, more, analysis(e, tagDirectives));
      }
      if e.anchorOpt.Some? || analysis(e, tagDirectives).handle > 0 || analysis(e, tagDirectives).suffix > 0 { indention := false; }
      if flowLevel > 0 || canonical || e.collectionStyle.Flow? || empty {
        state := if e.SequenceStart? then FlowSequenceFirstItemState else FlowMappingFirstKeyState;
      } else {
        NoFlow(states);
        state := if e.SequenceStart? then BlockSequenceFirstItemState else BlockMappingFirstKeyState;
      }
      Started(View(), e);
      forall more ensures IsFlow(state) <==>
                flowLevel > 0 || canonical || e.collectionStyle.Flow?
                || EmptySequenceAhead(Queue() + more) || EmptyMappingAhead(Queue() + more)
      {
        assert Queue() + more == q + more;
      }
    }

    method CheckEmptyCollection() returns (empty: bool)
      requires head <= |events|
      ensures empty <==> EmptySequenceAhead(Queue()) || EmptyMappingAhead(Queue())
    {
      if |events| - head < 2 { return false; }
      empty := (events[head].SequenceStart? && events[head + 1].SequenceEnd?)
               || (events[head].MappingStart? && events[head + 1].MappingEnd?);
    }

    /** The answer is the one the whole stream would give, whatever follows. */
    method CheckSimpleKey() returns (simple: bool)
      requires head < |events| && !NeedMore(Queue())
      ensures forall more :: simple == SimpleKeyAhead(Queue() + more, analysis(events[head], tagDirectives))
      ensures simple == SimpleKeyAhead(Queue(), analysis(events[head], tagDirectives))
    {
      var a := analysis(events[head], tagDirectives);
      var empty := CheckEmptyCollection();
      forall more ensures SimpleKeyAhead(Queue() + more, a) == SimpleKeyAhead(Queue(), a) {
        LookaheadSuffices(Queue(), more, a);
      }
      match events[head] {
        case Alias(_) => simple := a.anchor <= 128;
        case Scalar(_, _, _, _, _, _) => simple := !a.multiline && a.anchor + a.handle + a.suffix + a.value <= 128;
        case SequenceStart(_, _, _, _) => simple := empty && a.anchor + a.handle + a.suffix <= 128;
        case MappingStart(_, _, _, _) => simple := empty && a.anchor + a.handle + a.suffix <= 128;
        case _ => simple := false;
      }
      assert simple == SimpleKeyAhead(Queue(), a);
    }
  }

  /** A prefix of an accepted sequence is accepted. */
  lemma AcceptedPrefix(events: seq<Event>, n: nat)
    requires n <= |events|
    ensures Run(START, events).Some? ==> Run(START, events[..n]).Some?
  {
    assert events == events[..n] + events[n..];
    RunConcat(START, events[..n], events[n..]);
  }
}
