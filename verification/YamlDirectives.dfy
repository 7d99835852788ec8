/** Tag and version directives, and the tags they give to nodes. */
module YamlDirectives {
  import opened Wrappers
  import opened YamlEvents
  import opened YamlTokens

  /** The prefix of the first directive with this handle, followed by the suffix. */
  function Lookup(directives: seq<TagDirective>, handle: Bytes, suffix: Bytes): Bytes {
    if directives == [] then []
    else if directives[0].handle == handle then directives[0].prefix + suffix
    else Lookup(directives[1..], handle, suffix)
  }

  /** The tag of a node; `None` when the handle is undefined. */
  function ResolveTag(directives: seq<TagDirective>, tagToken: Option<Token>): Option<Bytes> {
    if tagToken.None? then Some([])
    else if tagToken.value.value == [] then Some(tagToken.value.suffix)
    else
      var tag := Lookup(directives, tagToken.value.value, tagToken.value.suffix);
      if tag == [] then None else Some(tag)
  }

  predicate Declared(directives: seq<TagDirective>, handle: Bytes) {
    exists i :: 0 <= i < |directives| && directives[i].handle == handle
  }

  /** The directive at `i` is the first with that handle. */
  predicate FirstWith(ds: seq<TagDirective>, handle: Bytes, i: nat) {
    i < |ds| && ds[i].handle == handle && forall j | 0 <= j < i :: ds[j].handle != handle
  }

  lemma {:induction false} FirstExists(ds: seq<TagDirective>, handle: Bytes, from: nat)
    requires from <= |ds| && Declared(ds, handle) && forall j | 0 <= j < from :: ds[j].handle != handle
    ensures exists i: nat :: FirstWith(ds, handle, i)
    decreases |ds| - from
  {
    if ds[from].handle == handle {
      assert FirstWith(ds, handle, from);
    } else {
      FirstExists(ds, handle, from + 1);
    }
  }

  /** A shorthand tag is the prefix of the first directive with its handle, then the suffix. */
  lemma {:induction false} LookupMeans(ds: seq<TagDirective>, handle: Bytes, suffix: Bytes, i: nat)
    ensures FirstWith(ds, handle, i) ==> Lookup(ds, handle, suffix) == ds[i].prefix + suffix
    ensures !Declared(ds, handle) ==> Lookup(ds, handle, suffix) == []
    decreases |ds|
  {
    if ds != [] && ds[0].handle != handle {
      if i > 0 && FirstWith(ds, handle, i) {
        assert FirstWith(ds[1..], handle, i - 1);
      }
      if Declared(ds[1..], handle) {
        var k :| 0 <= k < |ds[1..]| && ds[1..][k].handle == handle;
        assert ds[k + 1].handle == handle;
      }
      LookupMeans(ds[1..], handle, suffix, if i > 0 then i - 1 else 0);
    }
  }

  predicate IsDirective(k: TokenKind) { k.VersionDirectiveToken? || k.TagDirectiveToken? }

  ghost predicate Distinct(ds: seq<TagDirective>) {
    forall i, j | 0 <= i < j < |ds| :: ds[i].handle != ds[j].handle
  }

  lemma StaysDistinct(ds: seq<TagDirective>, declared: seq<TagDirective>, d: TagDirective)
    requires Distinct(ds) && !Declared(declared, d.handle)
    requires forall i | 0 <= i < |ds| :: ds[i] in declared
    ensures Distinct(ds + [d])
  {
  }

  lemma StillDeclared(a: seq<TagDirective>, b: seq<TagDirective>, handle: Bytes)
    requires Declared(a, handle) && a <= b
    ensures Declared(b, handle)
  {
    var i :| 0 <= i < |a| && a[i].handle == handle;
    assert b[i] == a[i];
  }

  //
  // The directives in front of a document.
  //

  /** The version and the directives of a document so far, and the tag directives in force. */
  datatype Declarations = Declarations(version: Option<(int, int)>, own: seq<TagDirective>, tags: seq<TagDirective>)

  function Appended(tags: seq<TagDirective>, d: TagDirective): seq<TagDirective> {
    if Declared(tags, d.handle) then tags else tags + [d]
  }

  /** The default directives are in force unless their handles are declared. */
  function WithDefaults(tags: seq<TagDirective>): seq<TagDirective> {
    Appended(Appended(tags, DEFAULT_TAG_DIRECTIVES[0]), DEFAULT_TAG_DIRECTIVES[1])
  }

  /** One more directive: a version that is new and 1.1, or a tag directive whose handle is new. */
  function Declare(t: Token, d: Declarations): Option<Declarations> {
    if t.kind.VersionDirectiveToken? then
      if d.version.Some? || t.major != 1 || t.minor != 1 then None else Some(d.(version := Some((1, 1))))
    else if t.kind.TagDirectiveToken? then
      var value := TagDirective(t.value, t.prefix);
      if Declared(d.tags, t.value) then None else Some(d.(own := d.own + [value], tags := d.tags + [value]))
    else None
  }

  /** What the directives from `h` on declare, and the token after them; none when one is refused or no token is left. */
  function DirectivesFrom(tokens: seq<Token>, h: nat, d: Declarations): (r: Option<(nat, Declarations)>)
    ensures r.Some? ==> h <= r.value.0 < |tokens| && !IsDirective(tokens[r.value.0].kind)
    decreases |tokens| - h
  {
    if h >= |tokens| then None
    else if !IsDirective(tokens[h].kind) then Some((h, d))
    else
      match Declare(tokens[h], d)
      case None => None
      case Some(d') => DirectivesFrom(tokens, h + 1, d')
  }

  /** Directives that are accepted hold at most one version, and none after one was given. */
  lemma {:induction false} OneVersion(tokens: seq<Token>, h: nat, d: Declarations)
    requires DirectivesFrom(tokens, h, d).Some?
    ensures var end := DirectivesFrom(tokens, h, d).value.0;
            && (d.version.Some? ==> forall i | h <= i < end :: !tokens[i].kind.VersionDirectiveToken?)
            && forall i, j | h <= i < j < end :: !(tokens[i].kind.VersionDirectiveToken? && tokens[j].kind.VersionDirectiveToken?)
    decreases |tokens| - h
  {
    if IsDirective(tokens[h].kind) { OneVersion(tokens, h + 1, Declare(tokens[h], d).value); }
  }

  /** The directives of a document have different handles and are all in force. */
  ghost predicate Orderly(d: Declarations) {
    Distinct(d.own) && forall i | 0 <= i < |d.own| :: d.own[i] in d.tags
  }

  lemma NoneDeclared(tags: seq<TagDirective>)
    ensures Orderly(Declarations(None, [], tags))
  {
  }

  lemma OrderlyUnder(d: Declarations, tags: seq<TagDirective>)
    requires Orderly(d) && d.tags <= tags
    ensures Distinct(d.own) && forall i | 0 <= i < |d.own| :: d.own[i] in tags
  {
  }

  lemma OrderlyStep(t: Token, d: Declarations)
    requires Orderly(d) && Declare(t, d).Some?
    ensures Orderly(Declare(t, d).value)
  {
    if t.kind.TagDirectiveToken? { StaysDistinct(d.own, d.tags, TagDirective(t.value, t.prefix)); }
  }

  lemma DefaultsDeclared(tags: seq<TagDirective>)
    ensures tags <= WithDefaults(tags)
    ensures forall d | d in DEFAULT_TAG_DIRECTIVES :: Declared(WithDefaults(tags), d.handle)
  {
    hide Declared;
    var d, e := DEFAULT_TAG_DIRECTIVES[0], DEFAULT_TAG_DIRECTIVES[1];
    AppendedDeclares(tags, d);
    AppendedDeclares(Appended(tags, d), e);
    StillDeclared(Appended(tags, d), WithDefaults(tags), d.handle);
  }

  lemma AppendedDeclares(tags: seq<TagDirective>, d: TagDirective)
    ensures tags <= Appended(tags, d) && Declared(Appended(tags, d), d.handle)
  {
    if !Declared(tags, d.handle) { assert (tags + [d])[|tags|] == d; }
  }
}
