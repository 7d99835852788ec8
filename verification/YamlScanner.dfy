/**
 The token scanner above the character level: possible simple keys, indentation, and the retroactive
 insertion of KEY and BLOCK-MAPPING-START into the queue of tokens not yet delivered.
 */
module YamlScanner {
  import opened Wrappers
  import opened YamlTokens
  import opened TokenQueue
  import opened YamlScanCore
  import opened YamlFetch
  import opened YamlEager
  import opened YamlOnDemand

  class Scanner {
    const lexemes: seq<Lexeme>
    const queue: Queue<Token>
    var pos: nat
    var mark: Mark
    var streamStartProduced: bool
    var streamEndProduced: bool
    var tokensParsed: nat
    var tokenAvailable: bool
    var indent: int
    var indents: seq<int>
    var simpleKeyAllowed: bool
    var simpleKeys: seq<SimpleKey>
    var flowLevel: nat
    var error: Option<Problem>
    ghost var total: seq<Token>  // every token produced so far

    /** The queue holds exactly the tokens not yet delivered. */
    ghost predicate Linked()
      reads this`total, this`tokensParsed, queue, queue.buf
    {
      queue.Valid() && tokensParsed <= |total| && queue.Pending() == total[tokensParsed..]
    }

    ghost function View(): Core
      reads this
    {
      Core(simpleKeys, tokensParsed, total, indents, indent, flowLevel, streamStartProduced)
    }

    /** Some possible simple key names the token at the head of the queue. */
    ghost predicate HeadMayBeKey()
      reads this
    {
      exists i | 0 <= i < |simpleKeys| :: simpleKeys[i].possible && simpleKeys[i].number == tokensParsed
    }

    /** The tokens are those of the lexemes taken, in order, but for what marks blocks and keys. */
    ghost predicate InOrder()
      reads this
    {
      Ordered(total, lexemes, pos, streamStartProduced, mark)
    }

    /** Where the marks move forward, the scanner is where fetching everything at once would be. */
    ghost predicate Steady()
      reads this
    {
      InStep(lexemes, pos, View(), simpleKeyAllowed, mark, error.Some?)
    }

    /** The end of the stream has been noticed if it has been delivered. */
    ghost predicate EndNoticed()
      reads this
    {
      0 < tokensParsed <= |total| && total[tokensParsed - 1].kind.StreamEndToken? ==> streamEndProduced
    }

    /** What holds between calls of `Scan`, on every run. */
    ghost predicate Valid()
      reads this, queue, queue.buf
    {
      && Linked() && pos <= |lexemes| && Steady() && (error.None? ==> InOrder() && EndNoticed())
      && (error.None? ==> Good(View()) && (tokenAvailable ==> tokensParsed < |total| && !HeadMayBeKey()))
    }

    /** What holds after an error. */
    ghost predicate Stopped()
      reads this, queue, queue.buf
    {
      error.Some? && Linked() && pos <= |lexemes| && Steady()
    }

    /** What holds while more tokens are fetched. */
    ghost predicate Running()
      reads this, queue, queue.buf
    {
      && Linked() && pos <= |lexemes| && Good(View()) && error.None? && InOrder()
      && Steady() && EndNoticed() && !streamEndProduced
    }

    constructor (lexemes: seq<Lexeme>)
      ensures Valid() && error.None? && this.lexemes == lexemes && total == [] && tokensParsed == 0
      ensures fresh(queue) && fresh(queue.buf) && !tokenAvailable && !streamEndProduced
    {
      this.lexemes := lexemes;
      queue := new Queue<Token>();
      pos, mark := 0, Mark(0, 0, 0);
      streamStartProduced, streamEndProduced, tokensParsed, tokenAvailable := false, false, 0, false;
      indent, indents, simpleKeyAllowed, simpleKeys, flowLevel := 0, [], false, [], 0;
      error, total := None, [];
    }

    /** Put a token at an absolute position that has not been delivered. */
    method Place(n: nat, t: Token)
      requires Linked() && tokensParsed <= n <= |total|
      modifies this`total, queue, queue.buf
      ensures Linked() && total == Inserted(old(total), n, t)
      ensures queue.buf == old(queue.buf) || fresh(queue.buf)
    {
      ghost var pending, i := queue.Pending(), n - tokensParsed;
      queue.Insert(n - tokensParsed, t);
      total := Inserted(total, n, t);
      assert total[tokensParsed..] == pending[..i] + [t] + pending[i..];
    }

    /** Put a token at the end of the queue. */
    method PlaceLast(t: Token)
      requires Linked()
      modifies this`total, queue, queue.buf
      ensures Linked() && total == Inserted(old(total), |old(total)|, t)
      ensures queue.buf == old(queue.buf) || fresh(queue.buf)
    {
      queue.Insert(-1, t);
      total := Inserted(total, |total|, t);
    }

    /** Append a token that a key saved just before may name. */
    method Append(t: Token)
      requires Linked() && Ready(View(), t.start) && streamStartProduced && Change(t) == 0
      modifies this`total, queue, queue.buf
      ensures Linked() && Good(View()) && total == old(total) + [t]
      ensures queue.buf == old(queue.buf) || fresh(queue.buf)
    {
      hide Good, Ready;
      AppendGood(View(), t);
      PlaceLast(t);
    }

    method AppendPlain(t: Token)
      requires Linked() && Good(View()) && streamStartProduced && Change(t) == 0
      modifies this`total, queue, queue.buf
      ensures Linked() && Good(View()) && total == old(total) + [t]
      ensures queue.buf == old(queue.buf) || fresh(queue.buf)
    {
      hide Good, Ready;
      GoodReady(View(), t.start);
      Append(t);
    }

    /** Deliver the next token. */
    method Scan() returns (t: Option<Token>)
      requires Valid()
      modifies this, queue, queue.buf
      ensures Valid() && (queue.buf == old(queue.buf) || fresh(queue.buf))
      ensures old(tokensParsed) <= tokensParsed <= |total| && total[..old(tokensParsed)] == old(total)[..old(tokensParsed)]
      ensures t.Some? ==> error.None? && tokensParsed == old(tokensParsed) + 1 && t.value == total[old(tokensParsed)]
      ensures t.None? ==> tokensParsed == old(tokensParsed)
      ensures old(error).None? && !old(streamEndProduced) && error.None? ==> t.Some?
      ensures t.Some? ==> streamEndProduced == t.value.kind.StreamEndToken?
      ensures pos >= old(pos) && (old(streamStartProduced) ==> streamStartProduced)
      ensures pos == old(pos) && streamStartProduced == old(streamStartProduced) && error.None? ==> total == old(total)
    {
      hide Good, Ordered, InStep;
      if streamEndProduced || error.Some? {
        return None;
      }
      if !tokenAvailable {
        FetchMoreTokens();
        if error.Some? { return None; }
      }
      var token := Deliver();
      return Some(token);
    }

    /** Deliver tokens to the end of the stream or to the first failure. */
    method ScanAll() returns (tokens: seq<Token>, ok: bool)
      requires Valid() && error.None? && tokensParsed == 0 && !streamEndProduced
      modifies this, queue, queue.buf
      ensures Valid() && (ok <==> error.None?)
      ensures tokens == total[..tokensParsed]
      ensures ok ==> tokens != [] && tokens[|tokens| - 1].kind.StreamEndToken?
      ensures Forward(lexemes) && !ok ==> Fails(lexemes)
      ensures Forward(lexemes) && EndsOnce(lexemes) && ok ==>
                FetchAll(STARTED, true, lexemes).Some? && tokens == FetchAll(STARTED, true, lexemes).value.core.total
    {
      hide Good, Ordered, KeysOk, FetchAll;
      tokens := [];
      while !streamEndProduced
        invariant Valid() && error.None? && (queue.buf == old(queue.buf) || fresh(queue.buf))
        invariant tokensParsed <= |total| && tokens == total[..tokensParsed]
        invariant streamEndProduced ==> tokens != [] && tokens[|tokens| - 1].kind.StreamEndToken?
        decreases |lexemes| - pos, !streamStartProduced, |total| - tokensParsed
      {
        ghost var before := tokensParsed;
        var t := Scan();
        if t.None? { return tokens, false; }
        assert total[..tokensParsed] == total[..before] + [t.value];
        tokens := tokens + [t.value];
      }
      ok := true;
      StartedBySome(View());
      if Forward(lexemes) && EndsOnce(lexemes) {
        EndIsLast(lexemes, pos);
        assert pos == |lexemes| && lexemes[..pos] == lexemes && tokensParsed == |total|;
      }
    }

    /** Take the token at the head of the queue. */
    method Deliver() returns (t: Token)
      requires Valid() && error.None? && tokenAvailable && !streamEndProduced
      modifies this`tokensParsed, this`tokenAvailable, this`streamEndProduced, queue`head
      ensures Valid() && tokensParsed == old(tokensParsed) + 1 <= |total| && t == total[old(tokensParsed)]
      ensures streamEndProduced == t.kind.StreamEndToken? && !tokenAvailable
    {
      hide Good, Ordered, InStep;
      DeliverGood(View());
      StartedBySome(View());
      DeliverInStep(lexemes, pos, View(), simpleKeyAllowed, mark);
      t := queue.Dequeue();
      tokensParsed := tokensParsed + 1;
      tokenAvailable := false;
      if t.kind.StreamEndToken? { streamEndProduced := true; }
    }

    /** Fetch until the head of the queue cannot become a simple key any more. */
    method FetchMoreTokens()
      requires Running()
      modifies this`error, this`pos, this`mark, this`streamStartProduced, this`indent, this`indents, this`tokenAvailable,
               this`simpleKeyAllowed, this`simpleKeys, this`flowLevel, this`total, queue, queue.buf
      ensures Valid() && (queue.buf == old(queue.buf) || fresh(queue.buf))
      ensures error.None? ==> tokenAvailable
      ensures total[..tokensParsed] == old(total)[..tokensParsed]
      ensures pos >= old(pos) && (old(streamStartProduced) ==> streamStartProduced)
      ensures pos == old(pos) && streamStartProduced == old(streamStartProduced) && error.None? ==> total == old(total)
    {
      hide Good, Ordered, InStep, Running, Stopped, Linked;
      SomeDelivered();
      while true
        invariant Running() && tokensParsed <= |total| && tokensParsed <= |old(total)| && pos <= |lexemes|
        invariant queue.buf == old(queue.buf) || fresh(queue.buf)
        invariant total[..tokensParsed] == old(total)[..tokensParsed]
        invariant pos >= old(pos) && (old(streamStartProduced) ==> streamStartProduced)
        invariant pos == old(pos) && streamStartProduced == old(streamStartProduced) ==> total == old(total)
        decreases |lexemes| - pos, !streamStartProduced
      {
        var need := NeedMoreTokens();
        if error.Some? { StoppedIsValid(); return; }
        if !need { break; }
        FetchNextToken();
        if error.Some? { StoppedIsValid(); return; }
      }
      RunningMeans();
      tokenAvailable := true;
    }

    lemma SomeDelivered()
      requires Running()
      ensures tokensParsed <= |total| && pos <= |lexemes| && error.None?
      ensures queue.head == queue.len <==> tokensParsed == |total|
    {
    }

    lemma StoppedIsValid()
      requires Stopped()
      ensures Valid()
    {
    }

    lemma RunningMeans()
      requires Running()
      ensures Linked() && pos <= |lexemes| && Good(View()) && error.None? && InOrder() && Steady() && EndNoticed()
    {
    }

    method NeedMoreTokens() returns (need: bool)
      requires Running()
      modifies this`simpleKeys, this`error
      ensures if error.None? then Running() else Stopped()
      ensures error.None? ==> (need <==> tokensParsed == |total| || HeadMayBeKey()) && tokensParsed <= |total|
    {
      hide Running, Stopped;
      SomeDelivered();
      need := queue.head == queue.len;
      if need { return; }
      DropPassedKeys();
      if error.Some? { return; }
      SomeDelivered();
      var i := 0;
      while i < |simpleKeys| && !need
        invariant 0 <= i <= |simpleKeys|
        invariant need ==> exists k :: 0 <= k < i && simpleKeys[k].possible && simpleKeys[k].number == tokensParsed
        invariant !need ==> forall k | 0 <= k < i :: !(simpleKeys[k].possible && simpleKeys[k].number == tokensParsed)
      {
        need := simpleKeys[i].possible && simpleKeys[i].number == tokensParsed;
        i := i + 1;
      }
    }

    /** Drop the keys that are too far back while tokens are waiting. */
    method DropPassedKeys()
      requires Running() && tokensParsed < |total|
      modifies this`simpleKeys, this`error
      ensures if error.None? then Running() else Stopped()
    {
      hide Good, InStep, Ordered, Overdue;
      StartedBySome(View());
      StaleInStep(lexemes, pos, View(), simpleKeyAllowed, mark);
      StaleSimpleKeys();
      FailedInStep(lexemes, pos, View(), simpleKeyAllowed, mark);
    }

    /** The dispatcher. */
    method FetchNextToken()
      requires Running() && (tokensParsed == |total| || HeadMayBeKey())
      modifies this`error, this`pos, this`mark, this`streamStartProduced, this`indent, this`indents,
               this`simpleKeyAllowed, this`simpleKeys, this`flowLevel, this`total, queue, queue.buf
      ensures (if error.None? then Running() else Stopped()) && (queue.buf == old(queue.buf) || fresh(queue.buf))
      ensures tokensParsed <= |total| && tokensParsed <= |old(total)| && total[..tokensParsed] == old(total)[..tokensParsed]
      ensures old(streamStartProduced) ==> streamStartProduced
      ensures old(pos) <= pos <= |lexemes|
      ensures error.None? ==> pos == old(pos) + 1 || (pos == old(pos) && streamStartProduced && !old(streamStartProduced))
      ensures old(streamStartProduced) && old(pos) < |lexemes| ==>
                Fetched(old(View()), old(simpleKeyAllowed), lexemes[old(pos)]) == if error.None? then Some(After(View(), simpleKeyAllowed)) else None
    {
      hide Good, Ordered, Fetched, InStep;
      if !streamStartProduced {
        OrderedStart(lexemes, total, pos, mark);
        BeforeStart(lexemes, pos, View(), simpleKeyAllowed, mark);
        FetchStreamStart();
        StartInStep(lexemes, View(), mark);
        return;
      }
      if pos == |lexemes| {
        UnfinishedInStep(lexemes, View(), simpleKeyAllowed, mark);
        error := Some(Unfinished);
        FailedInStep(lexemes, pos, View(), simpleKeyAllowed, mark);
        return;
      }
      StepInStep(lexemes, pos, View(), simpleKeyAllowed, mark);
      pos := pos + 1;
      FetchLexeme(lexemes[pos - 1]);
      FailedInStep(lexemes, pos, View(), simpleKeyAllowed, mark);
      if error.None? {
        SamePrefix(old(total), total, tokensParsed);
        OrderedStep(lexemes, old(pos), old(View()), old(simpleKeyAllowed), After(View(), simpleKeyAllowed), old(mark), mark);
      }
    }

    /** Everything up to the next lexeme, then its token. */
    method FetchLexeme(lexeme: Lexeme)
      requires Linked() && Good(View()) && error.None? && streamStartProduced
      modifies this`error, this`mark, this`indent, this`indents,
               this`simpleKeyAllowed, this`simpleKeys, this`flowLevel, this`total, queue, queue.buf
      ensures Linked() && (queue.buf == old(queue.buf) || fresh(queue.buf))
      ensures total[..tokensParsed] == old(total)[..tokensParsed]
      ensures error.None? ==> Good(View()) && mark == EndOf(lexeme)
      ensures Fetched(old(View()), old(simpleKeyAllowed), lexeme) == if error.None? then Some(After(View(), simpleKeyAllowed)) else None
    {
      hide Good, Unrolled, Fetched, Dispatched, Shut, Refreshed, Overdue;
      // Blanks, comments and line breaks.
      mark := lexeme.token.start;
      FetchedIs(old(View()), old(simpleKeyAllowed), lexeme);
      if lexeme.newline && flowLevel == 0 { simpleKeyAllowed := true; }
      StaleSimpleKeys();
      if error.Some? { return; }
      UnrollIndent(mark.column);
      Dispatch(lexeme);
    }

    method Dispatch(lexeme: Lexeme)
      requires Linked() && Good(View()) && error.None? && streamStartProduced && mark == lexeme.token.start
      modifies this`error, this`mark, this`indent, this`indents,
               this`simpleKeyAllowed, this`simpleKeys, this`flowLevel, this`total, queue, queue.buf
      ensures Linked() && (queue.buf == old(queue.buf) || fresh(queue.buf))
      ensures total[..tokensParsed] == old(total)[..tokensParsed]
      ensures error.None? ==> Good(View()) && mark == EndOf(lexeme)
      ensures Dispatched(old(View()), old(simpleKeyAllowed), old(mark), lexeme) == if error.None? then Some(After(View(), simpleKeyAllowed)) else None
    {
      hide Good;
      match lexeme.kind {
        case AtStreamEnd => FetchStreamEnd();
        case AtDirective => FetchDirective(lexeme);
        case AtDocumentIndicator => FetchDocumentIndicator(lexeme);
        case AtFlowStart => FetchFlowCollectionStart(lexeme);
        case AtFlowEnd => FetchFlowCollectionEnd(lexeme);
        case AtFlowEntry => FetchFlowEntry(lexeme);
        case AtBlockEntry => FetchBlockEntry(lexeme);
        case AtKey => FetchKey(lexeme);
        case AtValue => FetchValue(lexeme);
        case AtContent => FetchContent(lexeme);
        case AtBlockScalar => FetchBlockScalar(lexeme);
        case AtNothing => error := Some(BadContent);
      }
    }

    //
    // Simple keys.
    //

    /** Drop keys that are on an earlier line or more than 1024 characters back. */
    method StaleSimpleKeys()
      requires Good(View()) && error.None?
      modifies this`simpleKeys, this`error
      ensures Good(View()) && |simpleKeys| == |old(simpleKeys)|
      ensures error.None? ==> forall i | 0 <= i < |simpleKeys| :: simpleKeys[i] == Fresh(old(simpleKeys)[i], mark)
      ensures error.Some? ==> error == Some(KeyExpected)
      ensures error.Some? <==> exists i | 0 <= i < |old(simpleKeys)| :: old(simpleKeys)[i].required && Stale(old(simpleKeys)[i], mark)
      ensures error.Some? <==> Overdue(old(simpleKeys), mark)
      ensures error.None? ==> View() == Refreshed(old(View()), mark)
    {
      hide Good;
      var i := 0;
      while i < |simpleKeys|
        invariant 0 <= i <= |simpleKeys| == |old(simpleKeys)| && error.None?
        invariant forall k | i <= k < |simpleKeys| :: simpleKeys[k] == old(simpleKeys)[k]
        invariant forall k | 0 <= k < i :: simpleKeys[k] == Fresh(old(simpleKeys)[k], mark)
        invariant forall k | 0 <= k < i :: !(old(simpleKeys)[k].required && Stale(old(simpleKeys)[k], mark))
      {
        var key := simpleKeys[i];
        if key.possible && (key.mark.line < mark.line || key.mark.index + 1024 < mark.index) {
          if key.required {
            error := Some(KeyExpected);
            ForgetGood(old(View()), simpleKeys);
            return;
          }
          simpleKeys := simpleKeys[i := key.(possible := false)];
        }
        i := i + 1;
      }
      ForgetGood(old(View()), simpleKeys);
    }

    /** Save a key for the token that starts at the current mark, if one may start here. */
    method SaveSimpleKey()
      requires Good(View()) && Linked() && error.None? && streamStartProduced
      modifies this`simpleKeys, this`error
      ensures error.None? ==> Ready(View(), mark)
      ensures error.None? ==> simpleKeys == SavedKeys(old(View()), simpleKeyAllowed, mark)
      ensures error == Some(Panicked) <==> flowLevel == 0 && indent == mark.column && !simpleKeyAllowed
      ensures error == Some(KeyExpected) <==>
                simpleKeyAllowed && LastKeyPossible(old(View())) && old(simpleKeys)[|old(simpleKeys)| - 1].required
      ensures Saved(old(View()), simpleKeyAllowed, mark) == if error.None? then Some(View()) else None
    {
      hide Good, Ready;
      var required := flowLevel == 0 && indent == mark.column;
      if required && !simpleKeyAllowed {
        error := Some(Panicked);
        return;
      }
      GoodReady(View(), mark);
      if simpleKeyAllowed {
        var key := SimpleKey(true, required, tokensParsed + (queue.len - queue.head), mark);
        RemoveSimpleKey();
        if error.Some? { return; }
        SaveReady(View(), key);
        simpleKeys := simpleKeys[|simpleKeys| - 1 := key];
      }
    }

    /** Drop the key of the current flow level. */
    method RemoveSimpleKey()
      requires Good(View()) && error.None? && streamStartProduced
      modifies this`simpleKeys, this`error
      ensures Good(View()) && |simpleKeys| == |old(simpleKeys)| > 0
      ensures error.None? ==> !simpleKeys[|simpleKeys| - 1].possible
      ensures error.None? || error == Some(KeyExpected)
      ensures error.Some? <==> LastKeyPossible(old(View())) && old(simpleKeys)[|old(simpleKeys)| - 1].required
      ensures simpleKeys == if error.None? then DroppedKeys(old(View())) else old(simpleKeys)
      ensures Dropped(old(View())) == if error.None? then Some(View()) else None
    {
      hide KeysOk, Nested, Depth, IndentsOk;
      var i := |simpleKeys| - 1;
      if simpleKeys[i].possible && simpleKeys[i].required {
        error := Some(KeyExpected);
        return;
      }
      ForgetGood(View(), simpleKeys[i := simpleKeys[i].(possible := false)]);
      simpleKeys := simpleKeys[i := simpleKeys[i].(possible := false)];
    }

    method DecreaseFlowLevel()
      requires Good(View()) && streamStartProduced
      modifies this`simpleKeys, this`flowLevel
      ensures Good(View())
      ensures flowLevel == if old(flowLevel) > 0 then old(flowLevel) - 1 else 0
      ensures simpleKeys == if old(flowLevel) > 0 then old(simpleKeys)[..|old(simpleKeys)| - 1] else old(simpleKeys)
    {
      hide KeysOk, Nested, Depth, IndentsOk;
      if flowLevel > 0 {
        LeaveFlow(View());
        flowLevel := flowLevel - 1;
        simpleKeys := simpleKeys[..|simpleKeys| - 1];
      }
    }

    //
    // Indentation.
    //

    /** Open a block collection at `column` by appending its start token, outside flow context. */
    method RollIndent(column: int, kind: TokenKind, start: Mark)
      requires Linked() && Good(View()) && streamStartProduced
      requires kind.BlockSequenceStartToken? || kind.BlockMappingStartToken?
      modifies this`indent, this`indents, this`total, queue, queue.buf
      ensures Linked() && Good(View()) && (queue.buf == old(queue.buf) || fresh(queue.buf))
      ensures var opens := flowLevel == 0 && old(indent) < column;
              && total == (if opens then old(total) + [PlainToken(kind, start)] else old(total))
              && indents == (if opens then old(indents) + [old(indent)] else old(indents))
              && indent == (if opens then column else old(indent))
      ensures View() == (if column == start.column then Rolled(old(View()), kind, start) else View())
    {
      hide Good;
      if flowLevel > 0 { return; }
      if indent < column {
        RollGood(View(), column, PlainToken(kind, start));
        indents := indents + [indent];
        indent := column;
        PlaceLast(PlainToken(kind, start));
      }
    }

    /** Close the block collections indented deeper than `column`, outside flow context. */
    method UnrollIndent(column: int)
      requires Linked() && Good(View()) && streamStartProduced && column >= -1
      modifies this`indent, this`indents, this`total, queue, queue.buf
      ensures Linked() && Good(View()) && (queue.buf == old(queue.buf) || fresh(queue.buf))
      ensures old(total) <= total
      ensures if flowLevel > 0 then View() == old(View())
              else indent <= column && Unrolled(old(View()), View(), column, PlainToken(BlockEndToken, mark))
      ensures View() == Shut(old(View()), column, mark)
    {
      hide Good, Unrolled;
      if flowLevel > 0 { return; }
      var end := PlainToken(BlockEndToken, mark);
      NoneUnrolled(View(), column, end);
      while indent > column
        invariant Linked() && Good(View()) && (queue.buf == old(queue.buf) || fresh(queue.buf))
        invariant old(total) <= total && Unrolled(old(View()), View(), column, end)
        decreases |indents|
      {
        SomeIndent(View());
        UnrollGood(View(), end);
        UnrollOne(old(View()), View(), column, end);
        PlaceLast(end);
        indent := indents[|indents| - 1];
        indents := indents[..|indents| - 1];
      }
      ShutIs(old(View()), View(), column, mark);
    }

    //
    // The fetchers.
    //

    method FetchStreamStart()
      requires Linked() && Good(View()) && !streamStartProduced
      modifies this`indent, this`simpleKeys, this`simpleKeyAllowed, this`streamStartProduced, this`total, queue, queue.buf
      ensures Linked() && Good(View()) && streamStartProduced && (queue.buf == old(queue.buf) || fresh(queue.buf))
      ensures total == [PlainToken(StreamStartToken, mark)] && indent == -1 && simpleKeys == [NO_KEY] && simpleKeyAllowed
      ensures indents == [] && flowLevel == 0
      ensures old(total) == []
    {
      hide Good;
      NotStarted(View());
      indent := -1;
      simpleKeys := simpleKeys + [NO_KEY];
      simpleKeyAllowed := true;
      streamStartProduced := true;
      assert View() == Core([NO_KEY], 0, [], [], -1, 0, true);
      AppendPlain(PlainToken(StreamStartToken, mark));
    }

    /** Close every block and drop the key of the current flow level. */
    method ResetIndentAndKey()
      requires Linked() && Good(View()) && error.None? && streamStartProduced
      modifies this`indent, this`indents, this`simpleKeys, this`simpleKeyAllowed, this`error, this`total, queue, queue.buf
      ensures Linked() && Good(View()) && (queue.buf == old(queue.buf) || fresh(queue.buf))
      ensures old(total) <= total
      ensures flowLevel == 0 ==> indent <= -1 && indents == [] && total == old(total) + BlockEnds(old(View()), mark)
      ensures flowLevel > 0 ==> total == old(total) && indent == old(indent) && indents == old(indents)
      ensures !simpleKeyAllowed
      ensures error.Some? <==> LastKeyPossible(old(View())) && old(simpleKeys)[|old(simpleKeys)| - 1].required
      ensures simpleKeys == if error.None? then DroppedKeys(old(View())) else old(simpleKeys)
      ensures Reset(old(View()), mark) == if error.None? then Some(View()) else None
    {
      hide Good, Unrolled, DroppedKeys, LastKeyPossible;
      UnrollIndent(-1);
      if flowLevel == 0 { AllUnrolled(old(View()), View(), mark); }
      DroppedByKeys(old(View()), View());
      RemoveSimpleKey();
      simpleKeyAllowed := false;
    }

    method FetchStreamEnd()
      requires Linked() && Good(View()) && error.None? && streamStartProduced
      modifies this`mark, this`indent, this`indents, this`simpleKeys, this`simpleKeyAllowed, this`error, this`total, queue, queue.buf
      ensures Linked() && Good(View()) && (queue.buf == old(queue.buf) || fresh(queue.buf))
      ensures old(total) <= total
      ensures error.None? && flowLevel == 0 ==> indents == [] && Depth(total) == 0
      ensures error.None? ==> total != [] && total[|total| - 1].kind.StreamEndToken?
      ensures error.None? && flowLevel == 0 ==>
                total == old(total) + BlockEnds(old(View()), mark) + [PlainToken(StreamEndToken, mark)]
      ensures error.None? ==> mark == EndMark(old(mark))
      ensures OfStreamEnd(old(View()), old(mark)) == if error.None? then Some(After(View(), simpleKeyAllowed)) else None
    {
      hide Good, Depth, BlockEnds, Reset, LastKeyPossible, DroppedKeys;
      if mark.column != 0 {
        mark := Mark(mark.index, mark.line + 1, 0);
      }
      assert mark == EndMark(old(mark));
      ResetIndentAndKey();
      if error.Some? { return; }
      AppendPlain(PlainToken(StreamEndToken, mark));
      BlocksOpen(View());
    }

    method FetchDirective(lexeme: Lexeme)
      requires Linked() && Good(View()) && error.None? && streamStartProduced && lexeme.kind.AtDirective?
      modifies this`mark, this`indent, this`indents, this`simpleKeys, this`simpleKeyAllowed, this`error, this`total, queue, queue.buf
      ensures Linked() && Good(View()) && (queue.buf == old(queue.buf) || fresh(queue.buf))
      ensures old(total) <= total
      ensures error.None? && flowLevel == 0 ==> total == old(total) + BlockEnds(old(View()), old(mark)) + [lexeme.token]
      ensures error.None? ==> mark == lexeme.end
      ensures OfDirective(old(View()), old(mark), lexeme) == if error.None? then Some(After(View(), simpleKeyAllowed)) else None
    {
      hide Good, BlockEnds, Reset, LastKeyPossible, DroppedKeys;
      ResetIndentAndKey();
      if error.Some? { return; }
      if !lexeme.ok {
        error := Some(BadContent);
        return;
      }
      mark := lexeme.end;
      AppendPlain(lexeme.token);
    }

    method FetchDocumentIndicator(lexeme: Lexeme)
      requires Linked() && Good(View()) && error.None? && streamStartProduced && lexeme.kind.AtDocumentIndicator?
      modifies this`mark, this`indent, this`indents, this`simpleKeys, this`simpleKeyAllowed, this`error, this`total, queue, queue.buf
      ensures Linked() && Good(View()) && (queue.buf == old(queue.buf) || fresh(queue.buf))
      ensures old(total) <= total
      ensures error.None? && flowLevel == 0 ==> indent <= -1
      ensures error.None? && flowLevel == 0 ==> total == old(total) + BlockEnds(old(View()), old(mark)) + [lexeme.token]
      ensures error.None? ==> mark == lexeme.end
      ensures OfIndicator(old(View()), old(mark), lexeme) == if error.None? then Some(After(View(), simpleKeyAllowed)) else None
    {
      hide Good, BlockEnds, Reset, LastKeyPossible, DroppedKeys;
      ResetIndentAndKey();
      if error.Some? { return; }
      mark := lexeme.end;
      AppendPlain(lexeme.token);
    }

    method FetchFlowCollectionStart(lexeme: Lexeme)
      requires Linked() && Good(View()) && error.None? && streamStartProduced && lexeme.kind.AtFlowStart? && mark == lexeme.token.start
      modifies this`mark, this`flowLevel, this`simpleKeys, this`simpleKeyAllowed, this`error, this`total, queue, queue.buf
      ensures Linked() && (queue.buf == old(queue.buf) || fresh(queue.buf))
      ensures old(total) <= total
      ensures error.None? ==> Good(View()) && flowLevel == old(flowLevel) + 1
      ensures error.None? ==> total == old(total) + [lexeme.token] && simpleKeyAllowed && mark == lexeme.end
      ensures error.None? ==> simpleKeys == SavedKeys(old(View()), old(simpleKeyAllowed), old(mark)) + [NO_KEY]
      ensures OfFlowStart(old(View()), old(simpleKeyAllowed), old(mark), lexeme) == if error.None? then Some(After(View(), simpleKeyAllowed)) else None
    {
      hide Good, Ready, SavedKeys;
      SaveSimpleKey();
      if error.Some? { return; }
      EnterFlow(View(), mark);
      simpleKeys := simpleKeys + [NO_KEY];
      flowLevel := flowLevel + 1;
      simpleKeyAllowed := true;
      mark := lexeme.end;
      Append(lexeme.token);
    }

    method FetchFlowCollectionEnd(lexeme: Lexeme)
      requires Linked() && Good(View()) && error.None? && streamStartProduced && lexeme.kind.AtFlowEnd?
      modifies this`mark, this`flowLevel, this`simpleKeys, this`simpleKeyAllowed, this`error, this`total, queue, queue.buf
      ensures Linked() && Good(View()) && (queue.buf == old(queue.buf) || fresh(queue.buf))
      ensures old(total) <= total
      ensures error.None? ==> total == old(total) + [lexeme.token] && !simpleKeyAllowed && mark == lexeme.end
      ensures error.None? ==> flowLevel == if old(flowLevel) > 0 then old(flowLevel) - 1 else 0
      ensures error.None? ==> simpleKeys == if old(flowLevel) > 0 then old(simpleKeys)[..|old(simpleKeys)| - 1] else DroppedKeys(old(View()))
      ensures error.Some? <==> LastKeyPossible(old(View())) && old(simpleKeys)[|old(simpleKeys)| - 1].required
      ensures OfFlowEnd(old(View()), lexeme) == if error.None? then Some(After(View(), simpleKeyAllowed)) else None
    {
      hide Good, DroppedKeys, LastKeyPossible;
      RemoveSimpleKey();
      if error.Some? { return; }
      DroppedByKeys(old(View()), old(View()));
      DecreaseFlowLevel();
      simpleKeyAllowed := false;
      mark := lexeme.end;
      AppendPlain(lexeme.token);
    }

    method FetchFlowEntry(lexeme: Lexeme)
      requires Linked() && Good(View()) && error.None? && streamStartProduced && lexeme.kind.AtFlowEntry?
      modifies this`mark, this`simpleKeys, this`simpleKeyAllowed, this`error, this`total, queue, queue.buf
      ensures Linked() && Good(View()) && (queue.buf == old(queue.buf) || fresh(queue.buf))
      ensures old(total) <= total
      ensures error.None? ==> total == old(total) + [lexeme.token] && simpleKeyAllowed && mark == lexeme.end
      ensures error.None? ==> simpleKeys == DroppedKeys(old(View()))
      ensures OfFlowEntry(old(View()), lexeme) == if error.None? then Some(After(View(), simpleKeyAllowed)) else None
    {
      hide Good, DroppedKeys;
      RemoveSimpleKey();
      if error.Some? { return; }
      simpleKeyAllowed := true;
      mark := lexeme.end;
      AppendPlain(lexeme.token);
    }

    method FetchBlockEntry(lexeme: Lexeme)
      requires Linked() && Good(View()) && error.None? && streamStartProduced && lexeme.kind.AtBlockEntry?
      modifies this`mark, this`indent, this`indents, this`simpleKeys, this`simpleKeyAllowed, this`error, this`total, queue, queue.buf
      ensures Linked() && Good(View()) && (queue.buf == old(queue.buf) || fresh(queue.buf))
      ensures old(total) <= total
      ensures flowLevel == 0 && !old(simpleKeyAllowed) <==> error == Some(EntryNotAllowed)
      ensures error.None? ==> simpleKeyAllowed && mark == lexeme.end
      ensures error.None? ==>
                total == old(total) + Opened(old(View()), old(mark), BlockSequenceStartToken) + [lexeme.token]
      ensures OfBlockEntry(old(View()), old(simpleKeyAllowed), old(mark), lexeme) == if error.None? then Some(After(View(), simpleKeyAllowed)) else None
    {
      hide Good, DroppedKeys, LastKeyPossible;
      if flowLevel == 0 {
        if !simpleKeyAllowed {
          error := Some(EntryNotAllowed);
          return;
        }
        RollIndent(mark.column, BlockSequenceStartToken, mark);
      }
      RemoveSimpleKey();
      if error.Some? { return; }
      simpleKeyAllowed := true;
      mark := lexeme.end;
      AppendPlain(lexeme.token);
    }

    method FetchKey(lexeme: Lexeme)
      requires Linked() && Good(View()) && error.None? && streamStartProduced && lexeme.kind.AtKey?
      modifies this`mark, this`indent, this`indents, this`simpleKeys, this`simpleKeyAllowed, this`error, this`total, queue, queue.buf
      ensures Linked() && Good(View()) && (queue.buf == old(queue.buf) || fresh(queue.buf))
      ensures old(total) <= total
      ensures flowLevel == 0 && !old(simpleKeyAllowed) <==> error == Some(KeyNotAllowed)
      ensures error.None? ==> simpleKeyAllowed == (flowLevel == 0) && mark == lexeme.end
      ensures error.None? ==>
                total == old(total) + Opened(old(View()), old(mark), BlockMappingStartToken) + [lexeme.token]
      ensures OfKey(old(View()), old(simpleKeyAllowed), old(mark), lexeme) == if error.None? then Some(After(View(), simpleKeyAllowed)) else None
    {
      hide Good, DroppedKeys, LastKeyPossible;
      if flowLevel == 0 {
        if !simpleKeyAllowed {
          error := Some(KeyNotAllowed);
          return;
        }
        RollIndent(mark.column, BlockMappingStartToken, mark);
      }
      RemoveSimpleKey();
      if error.Some? { return; }
      simpleKeyAllowed := flowLevel == 0;
      mark := lexeme.end;
      AppendPlain(lexeme.token);
    }

    method FetchValue(lexeme: Lexeme)
      requires Linked() && Good(View()) && error.None? && streamStartProduced && lexeme.kind.AtValue?
      modifies this`mark, this`indent, this`indents, this`simpleKeys, this`simpleKeyAllowed, this`error, this`total, queue, queue.buf
      ensures Linked() && Good(View()) && (queue.buf == old(queue.buf) || fresh(queue.buf))
      ensures total[..tokensParsed] == old(total)[..tokensParsed]
      ensures KeyTurned(old(View()), View(), lexeme.token) || !LastKeyPossible(old(View()))
      ensures error.None? && !LastKeyPossible(old(View())) ==>
                total == old(total) + Opened(old(View()), old(mark), BlockMappingStartToken) + [lexeme.token]
      ensures error.None? ==> simpleKeyAllowed == (!LastKeyPossible(old(View())) && flowLevel == 0) && mark == lexeme.end
      ensures error.Some? <==> !LastKeyPossible(old(View())) && flowLevel == 0 && !old(simpleKeyAllowed)
      ensures OfValue(old(View()), old(simpleKeyAllowed), old(mark), lexeme) == if error.None? then Some(After(View(), simpleKeyAllowed)) else None
    {
      hide Good, WithKey, Opened, Linked, Turned, Rolled;
      SomeKey(View());
      var key := simpleKeys[|simpleKeys| - 1];
      if key.possible {
        TurnIntoKey();
        simpleKeyAllowed := false;
      } else {
        ValueOfComplexKey();
        if error.Some? { return; }
      }
      mark := lexeme.end;
      SomeKey(View());
      SnocKeeps(total, lexeme.token, tokensParsed);
      AppendPlain(lexeme.token);
    }

    method ValueOfComplexKey()
      requires Linked() && Good(View()) && error.None? && streamStartProduced
      modifies this`indent, this`indents, this`simpleKeyAllowed, this`error, this`total, queue, queue.buf
      ensures Linked() && Good(View()) && (queue.buf == old(queue.buf) || fresh(queue.buf))
      ensures old(total) <= total
      ensures error.None? <==> flowLevel > 0 || old(simpleKeyAllowed)
      ensures error.None? ==> total == old(total) + Opened(old(View()), mark, BlockMappingStartToken)
      ensures error.None? ==> simpleKeyAllowed == (flowLevel == 0)
      ensures error.None? ==> View() == Rolled(old(View()), BlockMappingStartToken, mark)
    {
      hide Good;
      if flowLevel == 0 {
        if !simpleKeyAllowed {
          error := Some(ValueNotAllowed);
          return;
        }
        RollIndent(mark.column, BlockMappingStartToken, mark);
      }
      simpleKeyAllowed := flowLevel == 0;
    }

    /** The current possible key has proved to be one: insert KEY, and BLOCK-MAPPING-START if it opens a block. */
    method TurnIntoKey()
      requires Linked() && Good(View()) && streamStartProduced && simpleKeys != [] && simpleKeys[|simpleKeys| - 1].possible
      modifies this`indent, this`indents, this`simpleKeys, this`total, queue, queue.buf
      ensures Linked() && Good(View()) && (queue.buf == old(queue.buf) || fresh(queue.buf))
      ensures total[..tokensParsed] == old(total)[..tokensParsed]
      ensures var key := old(simpleKeys)[|old(simpleKeys)| - 1];
              tokensParsed <= key.number < |old(total)| && total == WithKey(old(total), key, flowLevel == 0 && old(indent) < key.mark.column)
      ensures View() == Turned(old(View()))
    {
      hide Good, Inserted;
      var key := simpleKeys[|simpleKeys| - 1];
      TurnGood(View(), flowLevel == 0 && indent < key.mark.column);
      WithKeyKeeps(total, key, flowLevel == 0 && indent < key.mark.column, tokensParsed);
      Place(key.number, PlainToken(KeyToken, key.mark));
      if flowLevel == 0 && indent < key.mark.column {
        indents := indents + [indent];
        indent := key.mark.column;
        Place(key.number, PlainToken(BlockMappingStartToken, key.mark));
      }
      simpleKeys := simpleKeys[|simpleKeys| - 1 := key.(possible := false)];
    }

    /** A token that may be a simple key, or follow the start of one. */
    method FetchContent(lexeme: Lexeme)
      requires Linked() && Good(View()) && error.None? && streamStartProduced && lexeme.kind.AtContent? && mark == lexeme.token.start
      modifies this`mark, this`simpleKeys, this`simpleKeyAllowed, this`error, this`total, queue, queue.buf
      ensures Linked() && (queue.buf == old(queue.buf) || fresh(queue.buf))
      ensures old(total) <= total
      ensures error.None? ==> Good(View())
      ensures error.None? ==> total == old(total) + [lexeme.token] && mark == lexeme.end
      ensures error.None? ==> simpleKeyAllowed == lexeme.brokenAfter
      ensures error.None? ==> simpleKeys == SavedKeys(old(View()), old(simpleKeyAllowed), old(mark))
      ensures OfContent(old(View()), old(simpleKeyAllowed), old(mark), lexeme) == if error.None? then Some(After(View(), simpleKeyAllowed)) else None
    {
      hide Good, Ready, SavedKeys;
      SaveSimpleKey();
      if error.Some? { return; }
      simpleKeyAllowed := false;
      if !lexeme.ok {
        error := Some(BadContent);
        return;
      }
      mark := lexeme.end;
      if lexeme.brokenAfter { simpleKeyAllowed := true; }
      Append(lexeme.token);
    }

    method FetchBlockScalar(lexeme: Lexeme)
      requires Linked() && Good(View()) && error.None? && streamStartProduced && lexeme.kind.AtBlockScalar?
      modifies this`mark, this`simpleKeys, this`simpleKeyAllowed, this`error, this`total, queue, queue.buf
      ensures Linked() && Good(View()) && (queue.buf == old(queue.buf) || fresh(queue.buf))
      ensures old(total) <= total
      ensures error.None? ==> total == old(total) + [lexeme.token] && simpleKeyAllowed && mark == lexeme.end
      ensures error.None? ==> simpleKeys == DroppedKeys(old(View()))
      ensures OfBlockScalar(old(View()), lexeme) == if error.None? then Some(After(View(), simpleKeyAllowed)) else None
    {
      hide Good, DroppedKeys;
      RemoveSimpleKey();
      if error.Some? { return; }
      simpleKeyAllowed := true;
      if !lexeme.ok {
        error := Some(BadContent);
        return;
      }
      mark := lexeme.end;
      AppendPlain(lexeme.token);
    }
  }
}
