/**
 The fetches of a list of lexemes one after the other, from the start of the stream: the simple form of what
 the scanner does on demand. Keys lapse on the way.
 */
module YamlEager {
  import opened Wrappers
  import opened YamlTokens
  import opened YamlScanCore
  import opened YamlFetch
  import opened YamlSource

  function FetchAll(c: Core, allowed: bool, xs: seq<Lexeme>): Option<After>
    decreases |xs|
  {
    if xs == [] then Some(After(c, allowed))
    else match Fetched(c, allowed, xs[0]) case None => None case Some(a) => FetchAll(a.core, a.allowed, xs[1..])
  }

  /** Behind STREAM-START. */
  const STARTED := Core([NO_KEY], 0, [PlainToken(StreamStartToken, Mark(0, 0, 0))], [], -1, 0, true)

  lemma FetchAllNone(c: Core, allowed: bool)
    ensures FetchAll(c, allowed, []) == Some(After(c, allowed))
  {
  }

  lemma FetchAllOne(c: Core, allowed: bool, x: Lexeme)
    ensures FetchAll(c, allowed, [x]) == Fetched(c, allowed, x)
  {
    hide Fetched;
    assert [x][1..] == [];
  }

  lemma FetchAllCons(c: Core, allowed: bool, x: Lexeme, xs: seq<Lexeme>)
    ensures FetchAll(c, allowed, [x] + xs)
         == match Fetched(c, allowed, x) case None => None case Some(a) => FetchAll(a.core, a.allowed, xs)
  {
    hide Fetched;
    assert ([x] + xs)[1..] == xs;
  }

  lemma {:induction false} FetchAllConcat(c: Core, allowed: bool, xs: seq<Lexeme>, ys: seq<Lexeme>)
    ensures FetchAll(c, allowed, xs + ys)
         == match FetchAll(c, allowed, xs) case None => None case Some(a) => FetchAll(a.core, a.allowed, ys)
    decreases |xs|
  {
    hide Fetched;
    if xs == [] {
      assert xs + ys == ys;
    } else {
      assert xs + ys == [xs[0]] + (xs[1..] + ys);
      FetchAllCons(c, allowed, xs[0], xs[1..] + ys);
      match Fetched(c, allowed, xs[0]) {
        case None =>
        case Some(a) => FetchAllConcat(a.core, a.allowed, xs[1..], ys);
      }
    }
  }

  //
  // Tokens without their places.
  //

  function Unplaced(t: Token): Token { t.(start := Mark(0, 0, 0)) }

  function AllUnplaced(ts: seq<Token>): seq<Token> { seq(|ts|, i requires 0 <= i < |ts| => Unplaced(ts[i])) }

  lemma UnplacedConcat(a: seq<Token>, b: seq<Token>)
    ensures AllUnplaced(a + b) == AllUnplaced(a) + AllUnplaced(b)
  {
  }

  lemma UnplacedSnoc(a: seq<Token>, t: Token)
    ensures AllUnplaced(a + [t]) == AllUnplaced(a) + [Unplaced(t)]
  {
  }

  //
  // Keys lapse.
  //

  /** The key after the starts of these lexemes. */
  function Aged(key: SimpleKey, xs: seq<Lexeme>): SimpleKey
    decreases |xs|
  {
    if xs == [] then key else Aged(Fresh(key, xs[0].token.start), xs[1..])
  }

  function AllAged(keys: seq<SimpleKey>, xs: seq<Lexeme>): seq<SimpleKey> {
    seq(|keys|, i requires 0 <= i < |keys| => Aged(keys[i], xs))
  }

  lemma {:induction false} AgedKeeps(key: SimpleKey, xs: seq<Lexeme>)
    ensures Aged(key, xs).(possible := key.possible) == key && (Aged(key, xs).possible ==> key.possible)
    ensures !key.possible ==> Aged(key, xs) == key
    decreases |xs|
  {
    if xs != [] { AgedKeeps(Fresh(key, xs[0].token.start), xs[1..]); }
  }

  lemma {:induction false} AgedConcat(key: SimpleKey, xs: seq<Lexeme>, ys: seq<Lexeme>)
    ensures Aged(key, xs + ys) == Aged(Aged(key, xs), ys)
    decreases |xs|
  {
    if xs == [] {
      assert xs + ys == ys;
    } else {
      assert (xs + ys)[1..] == xs[1..] + ys;
      AgedConcat(Fresh(key, xs[0].token.start), xs[1..], ys);
    }
  }

  lemma AllAgedConcat(keys: seq<SimpleKey>, xs: seq<Lexeme>, ys: seq<Lexeme>)
    ensures AllAged(keys, xs + ys) == AllAged(AllAged(keys, xs), ys)
  {
    forall i | 0 <= i < |keys| ensures AllAged(keys, xs + ys)[i] == AllAged(AllAged(keys, xs), ys)[i] {
      AgedConcat(keys[i], xs, ys);
    }
  }

  lemma AgedOne(key: SimpleKey, x: Lexeme)
    ensures Aged(key, [x]) == Fresh(key, x.token.start)
  {
    assert [x][1..] == [];
  }

  /** The lexemes start on the line of the mark and within reach of it. */
  predicate Near(mark: Mark, xs: seq<Lexeme>) {
    forall i | 0 <= i < |xs| :: xs[i].token.start.line <= mark.line && xs[i].token.start.index <= mark.index + 1024
  }

  lemma {:induction false} NearStays(key: SimpleKey, xs: seq<Lexeme>)
    requires Near(key.mark, xs)
    ensures Aged(key, xs) == key
    decreases |xs|
  {
    if xs != [] {
      assert !Stale(key, xs[0].token.start);
      NearStays(key, xs[1..]);
    }
  }

  /** No required key lapses on the way. */
  predicate Timely(keys: seq<SimpleKey>, xs: seq<Lexeme>) {
    forall i | 0 <= i < |keys| :: keys[i].required && keys[i].possible ==> Aged(keys[i], xs).possible
  }

  lemma TimelyOne(keys: seq<SimpleKey>, x: Lexeme)
    requires Timely(keys, [x])
    ensures !Overdue(keys, x.token.start)
  {
    forall i | 0 <= i < |keys| ensures !(keys[i].required && Stale(keys[i], x.token.start)) {
      AgedOne(keys[i], x);
    }
  }

  lemma TimelySplit(keys: seq<SimpleKey>, xs: seq<Lexeme>, ys: seq<Lexeme>)
    requires Timely(keys, xs + ys)
    ensures Timely(keys, xs) && Timely(AllAged(keys, xs), ys)
  {
    forall i | 0 <= i < |keys| && keys[i].required && keys[i].possible
      ensures Aged(keys[i], xs).possible && Aged(Aged(keys[i], xs), ys).possible
    {
      AgedConcat(keys[i], xs, ys);
      AgedKeeps(Aged(keys[i], xs), ys);
    }
    forall i | 0 <= i < |keys| ensures Aged(keys[i], xs).required == keys[i].required { AgedKeeps(keys[i], xs); }
    forall i | 0 <= i < |keys| && Aged(keys[i], xs).possible ensures keys[i].possible { AgedKeeps(keys[i], xs); }
  }

  lemma AgedRefreshed(c: Core, x: Lexeme)
    ensures Refreshed(c, x.token.start).keys == AllAged(c.keys, [x])
  {
    forall i | 0 <= i < |c.keys| ensures Refreshed(c, x.token.start).keys[i] == AllAged(c.keys, [x])[i] {
      AgedOne(c.keys[i], x);
    }
  }
}
