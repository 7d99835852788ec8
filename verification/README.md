# Verified models of the router's core libraries

The HAProxy router is a thin controller; the logic it rests on lives in the libraries it vendors. This
project models seven of them in Dafny and proves what they promise:

- the YAML pipeline of yaml.v2: reader, scanner, parser, node builder, alias decoder, emitter and the
  double-quoted writer with the scanner that undoes it
  (`YamlReader`, `YamlUtf16`, `TokenQueue`, `YamlScanCore`, `YamlFetch`, `YamlEager`, `YamlOnDemand`,
  `YamlPanic`, `YamlScanner`, `YamlLayout`, `YamlFlowScan`, `YamlBlockScan`, `YamlDocScan`, `YamlLaying`,
  `YamlLoad`, `YamlTokens`, `YamlEvents`, `YamlDirectives`, `YamlMoves`, `YamlSource`, `YamlSpelling`, `YamlWriting`,
  `YamlParser`, `YamlParseBack`, `YamlNodes`, `YamlDecoder`, `YamlEmitter`, `YamlQuoted`, `YamlQuotedCode`,
  `YamlLines`, `YamlQuotedForm`, `YamlQuotedRead`, `YamlChars`, `Utf8`);
- the protocol buffer wire format (`ProtoWire`, `ProtoMessage`, `ProtoDecode`, `ProtoRoundTrip`,
  `ProtoMerge`, `ProtoKnown`, `ProtoGolden`, `ProtoBits`, `ProtoRequired`, `ProtoFilling`, `ProtoBuffer`,
  `ProtoReader`, `ProtoCodec`);
- the token bucket that limits reloads (`TokenBucket`);
- the streaming quantile summary of the metrics (`Quantile`, `QuantileAnswers`);
- the version 1 UUID clock (`Uuid`);
- the order of metrics and samples (`Metrics`).

`dafny verify dfyconfig.toml` checks everything.

Machines that update fields are classes whose invariant (`Valid`, `Inv`, `Good`) holds between calls, so a
property of the invariant is a property of every run. What a loop computes is given by a function, and the
theorems are about the functions. Error returns are explicit results; a panic is a branch proved
unreachable, except where noted below. Times and random bits are arguments.

How the main results fit together:

- `YamlEvents` defines well-nested event streams twice, as flattened trees and as a recogniser, and proves
  the two the same. Parser and emitter are each proved to be in step with the recogniser; the builder
  inverts the flattening.
- `YamlMoves` gives the event of each production as a function of the tokens, and the parser is proved to do
  exactly that. `YamlSource` describes every way to write a document and the tree it stands for,
  `YamlSpelling.StreamYields` is the round trip, and `YamlParseBack` carries it to the parser itself.
- `YamlFetch` gives what one lexeme makes of the scanner's state as a function; the scanner is proved to do
  exactly that, `FetchGains` says which tokens it adds, and the order of the lexemes is part of the
  scanner's invariant.
- `YamlLayout` says how documents may be laid out in lines and columns. `YamlDocScan.StreamScans` proves that
  fetching such lexemes gives the tokens of the documents, `YamlOnDemand` that scanning on demand is the same,
  and `YamlLoad.Load` carries this through the parser: indentation, dashes, colons and brackets come out as the
  trees they stand for. `YamlLoad.LayAndLoad` shows that all trees without empty
  block collections are reached.
- `YamlQuoted` describes the writer by pieces (escape, raw character, space, fold) and the scanner by one
  function per loop; `ReadsBack` composes them, `YamlQuotedCode` ties the loops of both to them, and
  `YamlQuotedRead` puts the reader between the two. `YamlLines` says what a text over several lines is
  scanned as, whoever wrote it.
- `ProtoRoundTrip.MessageReads` is the round trip over functions; `ProtoBuffer` and `ProtoReader` tie the
  in-place writer, the size calculation and the reader loops to those functions. `ProtoKnown` and
  `ProtoGolden` fix the bytes themselves, and `ProtoMerge` says what a second encoding adds.

Where the code and its documentation disagree, the code is followed:

- an implicit DOCUMENT-START event is marked as explicit (yaml.v2/parserc.go:217-234);
- in a single pair inside a flow sequence the token after `?` is consumed even when it is `,` or `]`
  (yaml.v2/parserc.go:839-848);
- the byte order mark test of the double-quoted writer looks at the start of the text, not at the current
  character (yaml.v2/yamlprivateh.go:81-83);
- a required simple key is not always allowed (yaml.v2/scannerc.go:868-880): `YamlPanic.RequiredKeyNotAllowed`
  has the tokens of `- k: [`, a line break, and ` ]x`;
- a merge value that is an alias of a sequence of mappings is refused (`YamlDecoder.AliasedSequenceMerge`),
  and an alias of the text of a merge key is an ordinary key (`YamlDecoder.AliasedMergeKey`);
- an unset required field inside a group is reported when encoding and not when decoding
  (`ProtoRoundTrip.GroupHidesMissing`);
- the count of required fields can be fooled by a tag above 64 (`ProtoRequired.LargeTagFoolsCounter`), in
  exactly the schemas `ProtoRequired.ReportsIff` names;
- input in UTF-16 is read low byte first whatever its mark says (`YamlUtf16.BigEndianIff`), and a character
  whose UTF-8 form is not as long as its UTF-16 form garbles the buffer (`YamlUtf16.StoredIff`);
- a full token bucket does not advance its tick, so a window can grant two capacities
  (`TokenBucket.OneBucketIff`) and a take on credit can be told to wait longer than the bucket needs
  (`TokenBucket.DebtWaitsForFirstTick`, `TokenBucket.StaleDebtServedLate`).

## Model

| member | source | states |
|---|---|---|
| `YamlEvents.AcceptedIffStream` | Godeps/_workspace/src/gopkg.in/yaml.v2/decode.go:104-183 | the recogniser of event sequences accepts exactly the flattenings of lists of documents whose nodes nest and whose mappings hold pairs |
| `YamlEvents.AcceptedIffPrefix` | Godeps/_workspace/src/gopkg.in/yaml.v2/decode.go:104-183 | an event sequence is not refused exactly when it is a prefix of some well-formed stream |
| `YamlEvents.ClosedIffStreamEnd` | Godeps/_workspace/src/gopkg.in/yaml.v2/parserc.go:62-73 | only STREAM-END closes a stream, so parsing is over exactly when it has been produced |
| `YamlEvents.FlattenRuns` | Godeps/_workspace/src/gopkg.in/yaml.v2/decode.go:104-131 | the events of any well-formed tree take the recogniser over exactly one node |
| `YamlEvents.SplitNode` | Godeps/_workspace/src/gopkg.in/yaml.v2/decode.go:104-131 | conversely, accepted events that start a node begin with the events of one well-formed tree |
| `YamlEvents.SplitItems` | Godeps/_workspace/src/gopkg.in/yaml.v2/decode.go:163-183 | accepted events inside a collection are the events of its items, in pairs for a mapping, and its end |
| `YamlEvents.SplitDocs` | Godeps/_workspace/src/gopkg.in/yaml.v2/decode.go:133-144 | accepted events after STREAM-START are whole documents and STREAM-END |
| `YamlEvents.RunConcat` | Godeps/_workspace/src/gopkg.in/yaml.v2/parserc.go:93-170 | the recogniser composes: reading two sequences one after the other is reading their concatenation |
| `YamlParser.Parser.constructor` | Godeps/_workspace/src/gopkg.in/yaml.v2/apic.go:28-34 | a new parser is valid, has emitted nothing and stands at the start of the stream |
| `YamlParser.Parser.Parse` | Godeps/_workspace/src/gopkg.in/yaml.v2/parserc.go:62-73 | on every run the events so far are accepted by the recogniser, each event lowers a measure bounded by five events a token, no event is lost or invented, each outcome is that of the move function, and nothing is produced after the end or an error |
| `YamlParser.Parser.RunsAreStreams` | Godeps/_workspace/src/gopkg.in/yaml.v2/parserc.go:93-993 | for every token sequence the events are a prefix of a well-formed stream, at most five a token, and a whole stream when parsing ends without error |
| `YamlParser.Parser.NotAtEnd` | Godeps/_workspace/src/gopkg.in/yaml.v2/parserc.go:62-73 | until STREAM-END has been produced the parser has not ended |
| `YamlParser.Parser.ParseAll` | Godeps/_workspace/src/gopkg.in/yaml.v2/parserc.go:62-170 | parsing terminates; without an error the events are exactly those of a list of documents |
| `YamlParser.Parser.StateMachine` | Godeps/_workspace/src/gopkg.in/yaml.v2/parserc.go:93-170 | every state is dispatched to its production, and each production keeps the invariant; no stack pop underflows |
| `YamlParser.Parser.ParseStreamStart` | Godeps/_workspace/src/gopkg.in/yaml.v2/parserc.go:175-192 | on every input yields exactly the event and configuration of its move function and fails where there is none; the event is one the recogniser takes in this state, and it leaves state, stack and marks where the recogniser then stands, lowers the measure, and passes on the text of the tokens it consumed |
| `YamlParser.Parser.SkipDocumentEnds` | Godeps/_workspace/src/gopkg.in/yaml.v2/parserc.go:206-215 | skips exactly the run of DOCUMENT-END tokens and stops at the first other one |
| `YamlParser.Parser.StartImplicitDocument` | Godeps/_workspace/src/gopkg.in/yaml.v2/parserc.go:217-234 | without a DOCUMENT-START token the document starts at the token ahead |
| `YamlParser.Parser.StartExplicitDocument` | Godeps/_workspace/src/gopkg.in/yaml.v2/parserc.go:236-262 | succeeds exactly when accepted directives and a DOCUMENT-START token are ahead; the event carries their version and tag directives, which are in force with the defaults |
| `YamlParser.Parser.ProcessDirective` | Godeps/_workspace/src/gopkg.in/yaml.v2/parserc.go:1020-1052 | succeeds exactly on a version that is new and 1.1 or a tag directive whose handle is new, and then declares it |
| `YamlParser.Parser.NodeAfter` | Godeps/_workspace/src/gopkg.in/yaml.v2/parserc.go:592-606 | a node or an empty scalar is the step of the production that asked for it |
| `YamlParser.Parser.CloseAfter` | Godeps/_workspace/src/gopkg.in/yaml.v2/parserc.go:607-620 | the end token closes the collection as the step of the production that met it |
| `YamlParser.Parser.ParseDocumentStart` | Godeps/_workspace/src/gopkg.in/yaml.v2/parserc.go:199-277 | on every input yields exactly the event and configuration of its move function and fails where there is none; the event is one the recogniser takes in this state, and it leaves state, stack and marks where the recogniser then stands, lowers the measure, and passes on the text of the tokens it consumed; opens a document or ends the stream |
| `YamlParser.Parser.ParseDocumentContent` | Godeps/_workspace/src/gopkg.in/yaml.v2/parserc.go:283-299 | on every input yields exactly the event and configuration of its move function and fails where there is none; the event is one the recogniser takes in this state, and it leaves state, stack and marks where the recogniser then stands, lowers the measure, and passes on the text of the tokens it consumed; an absent root yields the empty scalar |
| `YamlParser.Parser.ParseDocumentEnd` | Godeps/_workspace/src/gopkg.in/yaml.v2/parserc.go:306-332 | on every input yields exactly the event and configuration of its move function and fails where there is none; the event is one the recogniser takes in this state, and it leaves state, stack and marks where the recogniser then stands, lowers the measure, and passes on the text of the tokens it consumed |
| `YamlParser.Parser.ParseNode` | Godeps/_workspace/src/gopkg.in/yaml.v2/parserc.go:360-574 | reads one node event whose continuation is the top of the stack; its tag is the resolution of the tag token among its properties |
| `YamlParser.Parser.ParseAlias` | Godeps/_workspace/src/gopkg.in/yaml.v2/parserc.go:360-378 | an alias token becomes an alias event of that name and returns to the continuation |
| `YamlParser.Parser.ParseProperties` | Godeps/_workspace/src/gopkg.in/yaml.v2/parserc.go:380-430 | an anchor and a tag in either order, each at most once, are consumed and returned |
| `YamlParser.Parser.NodeTag` | Godeps/_workspace/src/gopkg.in/yaml.v2/parserc.go:431-452 | the tag of a node is its suffix without a handle, else the prefix of the first directive with the handle followed by the suffix; it is refused exactly when no directive has the handle or both parts are empty |
| `YamlParser.Parser.FindTag` | Godeps/_workspace/src/gopkg.in/yaml.v2/parserc.go:437-443 | the first directive with the handle gives prefix followed by suffix, and without one the tag is refused |
| `YamlParser.Parser.ParseContent` | Godeps/_workspace/src/gopkg.in/yaml.v2/parserc.go:453-574 | after its properties a node is a scalar, a collection start whose kind and style the token decides, an empty scalar when it had properties, or an error |
| `YamlParser.Parser.ParseScalar` | Godeps/_workspace/src/gopkg.in/yaml.v2/parserc.go:468-491 | the scalar event carries the token text and style and the two implicit flags computed from the tag and style |
| `YamlParser.Parser.Bare` | Godeps/_workspace/src/gopkg.in/yaml.v2/parserc.go:550-565 | properties with nothing after them give an empty plain scalar |
| `YamlParser.Parser.NodeOrEmpty` | Godeps/_workspace/src/gopkg.in/yaml.v2/parserc.go:592-606 | pushes the continuation and reads a node, or yields the empty scalar and goes to the continuation where a node is missing |
| `YamlParser.Parser.CloseCollection` | Godeps/_workspace/src/gopkg.in/yaml.v2/parserc.go:607-620 | an end event returns to the state below and pops the mark that was pushed at the start |
| `YamlParser.Parser.ParseBlockSequenceEntry` | Godeps/_workspace/src/gopkg.in/yaml.v2/parserc.go:580-627 | on every input yields exactly the event and configuration of its move function and fails where there is none; the event is one the recogniser takes in this state, and it leaves state, stack and marks where the recogniser then stands, lowers the measure, and passes on the text of the tokens it consumed |
| `YamlParser.Parser.ParseIndentlessSequenceEntry` | Godeps/_workspace/src/gopkg.in/yaml.v2/parserc.go:632-664 | on every input yields exactly the event and configuration of its move function and fails where there is none; the event is one the recogniser takes in this state, and it leaves state, stack and marks where the recogniser then stands, lowers the measure, and passes on the text of the tokens it consumed |
| `YamlParser.Parser.ParseBlockMappingKey` | Godeps/_workspace/src/gopkg.in/yaml.v2/parserc.go:676-722 | on every input yields exactly the event and configuration of its move function and fails where there is none; the event is one the recogniser takes in this state, and it leaves state, stack and marks where the recogniser then stands, lowers the measure, and passes on the text of the tokens it consumed |
| `YamlParser.Parser.ParseBlockMappingValue` | Godeps/_workspace/src/gopkg.in/yaml.v2/parserc.go:734-757 | on every input yields exactly the event and configuration of its move function and fails where there is none; the event is one the recogniser takes in this state, and it leaves state, stack and marks where the recogniser then stands, lowers the measure, and passes on the text of the tokens it consumed |
| `YamlParser.Parser.NextFlowEntry` | Godeps/_workspace/src/gopkg.in/yaml.v2/parserc.go:781-796 | moves past the start token or past a comma, or stays at the end token; anything else fails |
| `YamlParser.Parser.ParseFlowSequenceEntry` | Godeps/_workspace/src/gopkg.in/yaml.v2/parserc.go:771-827 | on every input yields exactly the event and configuration of its move function and fails where there is none; the event is one the recogniser takes in this state, and it leaves state, stack and marks where the recogniser then stands, lowers the measure, and passes on the text of the tokens it consumed |
| `YamlParser.Parser.ParseFlowSequenceEntryMappingKey` | Godeps/_workspace/src/gopkg.in/yaml.v2/parserc.go:834-849 | on every input yields exactly the event and configuration of its move function and fails where there is none; the event is one the recogniser takes in this state, and it leaves state, stack and marks where the recogniser then stands, lowers the measure, and passes on the text of the tokens it consumed; a comma or bracket in place of the key is consumed |
| `YamlParser.Parser.ParseFlowSequenceEntryMappingValue` | Godeps/_workspace/src/gopkg.in/yaml.v2/parserc.go:855-873 | on every input yields exactly the event and configuration of its move function and fails where there is none; the event is one the recogniser takes in this state, and it leaves state, stack and marks where the recogniser then stands, lowers the measure, and passes on the text of the tokens it consumed |
| `YamlParser.Parser.ParseFlowSequenceEntryMappingEnd` | Godeps/_workspace/src/gopkg.in/yaml.v2/parserc.go:879-891 | on every input yields exactly the event and configuration of its move function and fails where there is none; the event is one the recogniser takes in this state, and it leaves state, stack and marks where the recogniser then stands, lowers the measure, and passes on the text of the tokens it consumed |
| `YamlParser.Parser.ParseFlowMappingKey` | Godeps/_workspace/src/gopkg.in/yaml.v2/parserc.go:905-965 | on every input yields exactly the event and configuration of its move function and fails where there is none; the event is one the recogniser takes in this state, and it leaves state, stack and marks where the recogniser then stands, lowers the measure, and passes on the text of the tokens it consumed |
| `YamlParser.Parser.ParseFlowMappingExplicitKey` | Godeps/_workspace/src/gopkg.in/yaml.v2/parserc.go:934-949 | on every input yields exactly the event and configuration of its move function and fails where there is none; the event is one the recogniser takes in this state, and it leaves state, stack and marks where the recogniser then stands, lowers the measure, and passes on the text of the tokens it consumed |
| `YamlParser.Parser.ParseFlowMappingValue` | Godeps/_workspace/src/gopkg.in/yaml.v2/parserc.go:971-993 | on every input yields exactly the event and configuration of its move function and fails where there is none; the event is one the recogniser takes in this state, and it leaves state, stack and marks where the recogniser then stands, lowers the measure, and passes on the text of the tokens it consumed |
| `YamlParser.Parser.ProcessDirectives` | Godeps/_workspace/src/gopkg.in/yaml.v2/parserc.go:1014-1073 | reads exactly the directive tokens ahead and fails exactly when one is refused: the version, the tag directives with distinct handles, and what is in force with the defaults |
| `YamlParser.Parser.AppendDefaults` | Godeps/_workspace/src/gopkg.in/yaml.v2/parserc.go:1060-1064 | each default is added exactly when its handle is not declared |
| `YamlParser.Parser.AppendTagDirective` | Godeps/_workspace/src/gopkg.in/yaml.v2/parserc.go:1076-1096 | a duplicate handle is refused or ignored, otherwise the directive is appended |
| `YamlMoves.PastDocumentEnds` | Godeps/_workspace/src/gopkg.in/yaml.v2/parserc.go:206-215 | the first token from there on that is not DOCUMENT-END |
| `YamlDirectives.LookupMeans` | Godeps/_workspace/src/gopkg.in/yaml.v2/parserc.go:437-443 | the first directive with the handle gives prefix followed by suffix, and there is none without one |
| `YamlDirectives.OneVersion` | Godeps/_workspace/src/gopkg.in/yaml.v2/parserc.go:1020-1040 | directives that are accepted hold at most one version, and none after one was given |
| `YamlDirectives.OrderlyStep` | Godeps/_workspace/src/gopkg.in/yaml.v2/parserc.go:1041-1052 | accepted tag directives have different handles and are all in force |
| `YamlDirectives.DefaultsDeclared` | Godeps/_workspace/src/gopkg.in/yaml.v2/parserc.go:1060-1064 | with the defaults both default handles are declared and what was in force stays in front |
| `YamlSpelling.StreamYields` | Godeps/_workspace/src/gopkg.in/yaml.v2/parserc.go:93-1006 | however documents are written (explicit or implicit start, directives, shorthand or full tags, properties in either order, block, flow and indentless collections, single pairs, trailing commas, left-out keys, values, items and roots, extra document ends) the tokens move the parser through exactly the events of the trees |
| `YamlSpelling.DocsYield` | Godeps/_workspace/src/gopkg.in/yaml.v2/parserc.go:199-332 | documents one after the other, past extra document ends, yield their events |
| `YamlSpelling.DirectivesRead` | Godeps/_workspace/src/gopkg.in/yaml.v2/parserc.go:1014-1064 | the directives in front of a document are read as what they declare |
| `YamlSpelling.NodeYields` | Godeps/_workspace/src/gopkg.in/yaml.v2/parserc.go:360-574 | the tokens of a node at any place where they fit yield its flattened events and lead to the state after that place |
| `YamlSpelling.PlaceNext` | Godeps/_workspace/src/gopkg.in/yaml.v2/parserc.go:580-993 | at every place a token that starts a node is read as one and a token that ends the place as the empty scalar |
| `YamlSpelling.LeafYields` | Godeps/_workspace/src/gopkg.in/yaml.v2/parserc.go:360-565 | an alias, a scalar with its properties, or properties alone yield one event |
| `YamlSpelling.ItemsYield` | Godeps/_workspace/src/gopkg.in/yaml.v2/parserc.go:580-827 | a sequence in block, flow or indentless form yields its start, its items and its end |
| `YamlSpelling.PairsYield` | Godeps/_workspace/src/gopkg.in/yaml.v2/parserc.go:676-993 | a mapping of either style yields its start, its keys and values in order and its end |
| `YamlSpelling.BlockItemsYield` | Godeps/_workspace/src/gopkg.in/yaml.v2/parserc.go:580-627 | the items of a block sequence, empty ones included, yield their events and its end |
| `YamlSpelling.IndentlessItemsYield` | Godeps/_workspace/src/gopkg.in/yaml.v2/parserc.go:632-664 | the items of an indentless sequence yield their events and its end, which consumes no token |
| `YamlSpelling.FlowItemsYield` | Godeps/_workspace/src/gopkg.in/yaml.v2/parserc.go:771-827 | the items of a flow sequence between commas, one of which may be last, yield their events and its end |
| `YamlSpelling.SingleThen` | Godeps/_workspace/src/gopkg.in/yaml.v2/parserc.go:798-891 | a single pair in a flow sequence yields a mapping of its own |
| `YamlSpelling.BlockEntriesYield` | Godeps/_workspace/src/gopkg.in/yaml.v2/parserc.go:676-757 | the pairs of a block mapping yield their events and its end |
| `YamlSpelling.FlowEntriesYield` | Godeps/_workspace/src/gopkg.in/yaml.v2/parserc.go:905-993 | the pairs of a flow mapping, with or without KEY and VALUE tokens, yield their events and its end |
| `YamlSpelling.EntryThen` | Godeps/_workspace/src/gopkg.in/yaml.v2/parserc.go:676-757 | a key and its value yield their events and lead back to the next key |
| `YamlSpelling.ValueThen` | Godeps/_workspace/src/gopkg.in/yaml.v2/parserc.go:734-757 | a value behind its token, or none, yields its events |
| `YamlSpelling.PropertiesMove` | Godeps/_workspace/src/gopkg.in/yaml.v2/parserc.go:380-452 | an anchor and a tag in either order in front of content are read into the event of that content, a handle replaced by its prefix |
| `YamlWriting.TreeSpelled` | Godeps/_workspace/src/gopkg.in/yaml.v2/parserc.go:360-574 | every tree whose flags follow from its tags and styles can be written at any place, and stands for itself |
| `YamlWriting.DocsSpelled` | Godeps/_workspace/src/gopkg.in/yaml.v2/parserc.go:199-332 | every list of documents with version 1.1 or none, distinct tag handles and such trees can be written |
| `YamlWriting.TagsDeclared` | Godeps/_workspace/src/gopkg.in/yaml.v2/parserc.go:1041-1052 | tag directives with new handles are declared in order |
| `YamlParseBack.ParseTokens` | Godeps/_workspace/src/gopkg.in/yaml.v2/parserc.go:62-170 | parsing any tokens succeeds exactly when the moves lead to the end of the stream, and then yields their events |
| `YamlParseBack.DeadEnd` | Godeps/_workspace/src/gopkg.in/yaml.v2/parserc.go:62-170 | a run that is stuck has no other way to the end of the stream |
| `YamlParseBack.YieldsUnique` | Godeps/_workspace/src/gopkg.in/yaml.v2/parserc.go:62-170 | the events of a stream and where they end are unique |
| `YamlParseBack.ParseSpelled` | Godeps/_workspace/src/gopkg.in/yaml.v2/parserc.go:62-170 | the parser run on the tokens of documents, however written, succeeds and has emitted exactly their events |
| `YamlParseBack.ParseWritten` | Godeps/_workspace/src/gopkg.in/yaml.v2/parserc.go:62-170 | for any such list of document trees there are tokens from which the parser gives back exactly their events |
| `YamlParser.NodeProduced` | Godeps/_workspace/src/gopkg.in/yaml.v2/parserc.go:592-606 | a node read before its continuation is a step of the recogniser from the state that asked for it |
| `YamlParser.CloseProduced` | Godeps/_workspace/src/gopkg.in/yaml.v2/parserc.go:607-620 | the end of a collection is a step of the recogniser to the level below |
| `YamlParser.EmptyProduced` | Godeps/_workspace/src/gopkg.in/yaml.v2/parserc.go:996-1006 | an empty scalar in place of a node is a step of the recogniser |
| `YamlParser.PairProduced` | Godeps/_workspace/src/gopkg.in/yaml.v2/parserc.go:798-808 | a single pair in a flow sequence opens a mapping without pushing a continuation |
| `YamlParser.DocumentProduced` | Godeps/_workspace/src/gopkg.in/yaml.v2/parserc.go:217-276 | document starts and the stream end are steps of the recogniser outside nodes |
| `YamlParser.RootRead` | Godeps/_workspace/src/gopkg.in/yaml.v2/parserc.go:283-299 | the root node is a step from the document level |
| `YamlParser.StartRead` | Godeps/_workspace/src/gopkg.in/yaml.v2/parserc.go:453-549 | a collection start leaves the stack alone and its first state expects its items |
| `YamlParser.PropertiesRead` | Godeps/_workspace/src/gopkg.in/yaml.v2/parserc.go:380-452 | properties in front of a node account for the anchor in its event |
| `YamlNodes.Builder.First` | Godeps/_workspace/src/gopkg.in/yaml.v2/decode.go:39-57 | the first event is STREAM-START |
| `YamlNodes.Builder.Start` | Godeps/_workspace/src/gopkg.in/yaml.v2/decode.go:39-57 | after it the builder stands at the document level with no anchors |
| `YamlNodes.Builder.Skip` | Godeps/_workspace/src/gopkg.in/yaml.v2/decode.go:66-76 | moves to the next event; the events passed over stay accepted |
| `YamlNodes.Builder.ParseNode` | Godeps/_workspace/src/gopkg.in/yaml.v2/decode.go:104-123 | reads the events of exactly one well-formed tree and returns its node and anchors; no unexpected event can occur |
| `YamlNodes.Builder.ParseLeaf` | Godeps/_workspace/src/gopkg.in/yaml.v2/decode.go:146-161 | an alias or scalar becomes its node and its anchor is entered |
| `YamlNodes.Builder.ParseCollection` | Godeps/_workspace/src/gopkg.in/yaml.v2/decode.go:163-183 | a sequence or mapping node has the nodes of its items as children, and the anchor table is that of the whole tree in order of first events |
| `YamlNodes.Builder.ParseItems` | Godeps/_workspace/src/gopkg.in/yaml.v2/decode.go:163-172 | the children of a sequence are its items in order |
| `YamlNodes.Builder.ParsePairs` | Godeps/_workspace/src/gopkg.in/yaml.v2/decode.go:174-183 | the children of a mapping alternate keys and values |
| `YamlNodes.Builder.ParsePair` | Godeps/_workspace/src/gopkg.in/yaml.v2/decode.go:178-181 | one key and one value are appended after the earlier children |
| `YamlNodes.Builder.ParseDocument` | Godeps/_workspace/src/gopkg.in/yaml.v2/decode.go:133-144 | a document is the node and anchor table of the one tree between DOCUMENT-START and DOCUMENT-END; at the stream end there is none |
| `YamlNodes.NodesAt` | Godeps/_workspace/src/gopkg.in/yaml.v2/decode.go:163-183 | the node at a place is that of the tree at that place |
| `YamlNodes.LastAnchorWins` | Godeps/_workspace/src/gopkg.in/yaml.v2/decode.go:98-102 | a name stands for the last node it was put on |
| `YamlNodes.AnchoredInOrder` | Godeps/_workspace/src/gopkg.in/yaml.v2/decode.go:98-161 | the anchors of a tree are those of its events, in their order |
| `YamlNodes.BindLate` | Godeps/_workspace/src/gopkg.in/yaml.v2/decode.go:98-102 | entering a node before its children or after them, unless a child took the name, gives the same table |
| `YamlNodes.BindConcat` | Godeps/_workspace/src/gopkg.in/yaml.v2/decode.go:98-102 | anchors of consecutive nodes are entered in order, later names hiding earlier ones |
| `YamlEmitter.SimpleKeyIff` | Godeps/_workspace/src/gopkg.in/yaml.v2/emitterc.go:764-795 | a key fits in simple form exactly when it is an alias, a scalar on one line or an empty collection, no longer than 128 with its properties |
| `YamlEmitter.LookaheadSuffices` | Godeps/_workspace/src/gopkg.in/yaml.v2/emitterc.go:136-170 | once no more events are needed, the empty-collection and simple-key checks answer as they would on the whole stream |
| `YamlEmitter.LookaheadNeeded` | Godeps/_workspace/src/gopkg.in/yaml.v2/emitterc.go:136-170 | an emptiness check can still change its answer exactly when the queue holds a collection start alone, and then the emitter waits; the longer waits at DOCUMENT-START and for the third event of a mapping are not needed |
| `YamlEmitter.DepthRuns` | Godeps/_workspace/src/gopkg.in/yaml.v2/emitterc.go:150-168 | the level counted by the lookahead is the change in nesting depth over accepted events |
| `YamlEmitter.DrainsAtEnd` | Godeps/_workspace/src/gopkg.in/yaml.v2/emitterc.go:136-170 | when the stream has ended no event is held back |
| `YamlEmitter.NoFlow` | Godeps/_workspace/src/gopkg.in/yaml.v2/emitterc.go:456-575 | a stack without flow states counts flow level zero |
| `YamlEmitter.Emitter.constructor` | Godeps/_workspace/src/gopkg.in/yaml.v2/apic.go:84-92 | a new emitter is valid and its queue empty |
| `YamlEmitter.Emitter.NeedMoreEvents` | Godeps/_workspace/src/gopkg.in/yaml.v2/emitterc.go:136-170 | answers whether a collection at the head of the queue is still open within its lookahead |
| `YamlEmitter.Emitter.Emit` | Godeps/_workspace/src/gopkg.in/yaml.v2/emitterc.go:113-127 | on every run: no sequencing error on well-nested events, and after a whole stream the queue, state stack and indent stack are empty and the flow level is zero |
| `YamlEmitter.Emitter.EmitHead` | Godeps/_workspace/src/gopkg.in/yaml.v2/emitterc.go:113-127 | one queued event is consumed as one step of the recogniser |
| `YamlEmitter.Emitter.AtEnd` | Godeps/_workspace/src/gopkg.in/yaml.v2/emitterc.go:113-127 | a valid emitter that was given a whole stream is empty and at level zero |
| `YamlEmitter.Emitter.StateMachine` | Godeps/_workspace/src/gopkg.in/yaml.v2/emitterc.go:211-269 | consumes the event as a step of the recogniser and keeps stack, indents and flow level in step with it, or reports a sequencing error exactly when the recogniser refuses the event |
| `YamlEmitter.Emitter.EmitStreamStart` | Godeps/_workspace/src/gopkg.in/yaml.v2/emitterc.go:272-308 | consumes the event as a step of the recogniser and keeps stack, indents and flow level in step with it, or reports a sequencing error exactly when the recogniser refuses the event |
| `YamlEmitter.Emitter.EmitDocumentStart` | Godeps/_workspace/src/gopkg.in/yaml.v2/emitterc.go:311-422 | consumes the event as a step of the recogniser and keeps stack, indents and flow level in step with it, or reports a sequencing error exactly when the recogniser refuses the event |
| `YamlEmitter.Emitter.AppendTagDirectives` | Godeps/_workspace/src/gopkg.in/yaml.v2/emitterc.go:321-336 | succeeds exactly when the version is absent or 1.1 and every user directive has a new handle; the user directives and then the missing defaults are appended |
| `YamlEmitter.Emitter.AppendDefaults` | Godeps/_workspace/src/gopkg.in/yaml.v2/emitterc.go:331-336 | both default handles are known afterwards and nothing else is added |
| `YamlEmitter.Emitter.AppendTagDirective` | Godeps/_workspace/src/gopkg.in/yaml.v2/emitterc.go:173-193 | a duplicate handle is refused or ignored, otherwise the directive is appended |
| `YamlEmitter.Emitter.EmitDocumentContent` | Godeps/_workspace/src/gopkg.in/yaml.v2/emitterc.go:425-428 | consumes the event as a step of the recogniser and keeps stack, indents and flow level in step with it, or reports a sequencing error exactly when the recogniser refuses the event |
| `YamlEmitter.Emitter.EmitDocumentEnd` | Godeps/_workspace/src/gopkg.in/yaml.v2/emitterc.go:431-453 | consumes the event as a step of the recogniser and keeps stack, indents and flow level in step with it, or reports a sequencing error exactly when the recogniser refuses the event |
| `YamlEmitter.Emitter.IncreaseIndent` | Godeps/_workspace/src/gopkg.in/yaml.v2/emitterc.go:196-208 | the old indent is pushed and the new one is the first level, the same level, or one step deeper |
| `YamlEmitter.Emitter.EmitFlowSequenceItem` | Godeps/_workspace/src/gopkg.in/yaml.v2/emitterc.go:456-501 | consumes the event as a step of the recogniser and keeps stack, indents and flow level in step with it, or reports a sequencing error exactly when the recogniser refuses the event |
| `YamlEmitter.Emitter.EmitFlowMappingKey` | Godeps/_workspace/src/gopkg.in/yaml.v2/emitterc.go:504-555 | consumes the event as a step of the recogniser and keeps stack, indents and flow level in step with it, or reports a sequencing error exactly when the recogniser refuses the event; the value is expected in simple form exactly when the key is simple on the whole stream and the output is not canonical |
| `YamlEmitter.Emitter.EmitFlowMappingValue` | Godeps/_workspace/src/gopkg.in/yaml.v2/emitterc.go:558-575 | consumes the event as a step of the recogniser and keeps stack, indents and flow level in step with it, or reports a sequencing error exactly when the recogniser refuses the event |
| `YamlEmitter.Emitter.EmitBlockSequenceItem` | Godeps/_workspace/src/gopkg.in/yaml.v2/emitterc.go:578-599 | consumes the event as a step of the recogniser and keeps stack, indents and flow level in step with it, or reports a sequencing error exactly when the recogniser refuses the event |
| `YamlEmitter.Emitter.EmitBlockMappingKey` | Godeps/_workspace/src/gopkg.in/yaml.v2/emitterc.go:602-627 | consumes the event as a step of the recogniser and keeps stack, indents and flow level in step with it, or reports a sequencing error exactly when the recogniser refuses the event; the value is expected in simple form exactly when the key is simple on the whole stream |
| `YamlEmitter.Emitter.EmitBlockMappingValue` | Godeps/_workspace/src/gopkg.in/yaml.v2/emitterc.go:630-645 | consumes the event as a step of the recogniser and keeps stack, indents and flow level in step with it, or reports a sequencing error exactly when the recogniser refuses the event |
| `YamlEmitter.Emitter.EmitNode` | Godeps/_workspace/src/gopkg.in/yaml.v2/emitterc.go:648-670 | a node event opens its level over the continuation on the stack, and in simple-key context it is one that fits; any other event is a sequencing error |
| `YamlEmitter.Emitter.EmitScalar` | Godeps/_workspace/src/gopkg.in/yaml.v2/emitterc.go:683-704 | a scalar returns to the continuation |
| `YamlEmitter.Emitter.EmitCollectionStart` | Godeps/_workspace/src/gopkg.in/yaml.v2/emitterc.go:707-738 | a collection is written in flow style exactly inside flow context, on request, in canonical output or when it is empty on the whole stream, so no block state lies above a flow state |
| `YamlEmitter.Emitter.CheckEmptyCollection` | Godeps/_workspace/src/gopkg.in/yaml.v2/emitterc.go:746-761 | true exactly when the two events ahead open and close a collection |
| `YamlEmitter.Emitter.CheckSimpleKey` | Godeps/_workspace/src/gopkg.in/yaml.v2/emitterc.go:764-795 | the answer is the one the whole stream would give, whatever follows |
| `TokenQueue.Queue.Insert` | Godeps/_workspace/src/gopkg.in/yaml.v2/apic.go:8-25 | the pending tokens are the old ones with the token put in at the position, or appended for a negative one, across compaction and reallocation |
| `TokenQueue.Queue.Compact` | Godeps/_workspace/src/gopkg.in/yaml.v2/apic.go:10-18 | moving the pending tokens to the front of the array changes none of them |
| `TokenQueue.Queue.Rotate` | Godeps/_workspace/src/gopkg.in/yaml.v2/apic.go:20-25 | shifting the tail by one place and storing the token is insertion |
| `TokenQueue.Queue.Append` | Godeps/_workspace/src/gopkg.in/yaml.v2/apic.go:19-23 | the token is appended to the pending ones |
| `TokenQueue.Queue.Dequeue` | Godeps/_workspace/src/gopkg.in/yaml.v2/scannerc.go:587-590 | takes the first pending token |
| `TokenQueue.ShiftedIsInserted` | Godeps/_workspace/src/gopkg.in/yaml.v2/apic.go:20-25 | the overlapping copy by one place is exactly insertion |
| `YamlScanCore.InsertNests` | Godeps/_workspace/src/gopkg.in/yaml.v2/scannerc.go:937-961 | putting in a token that closes no block keeps every prefix of the tokens nested and adds its change to the depth |
| `YamlScanCore.InsertAtKey` | Godeps/_workspace/src/gopkg.in/yaml.v2/scannerc.go:1279-1299 | a token put in at the innermost key keeps every possible key naming the token it was saved for |
| `YamlScanCore.TurnGood` | Godeps/_workspace/src/gopkg.in/yaml.v2/scannerc.go:1274-1299 | turning the innermost possible key into a key keeps every promise of the scanner |
| `YamlScanCore.RollGood` | Godeps/_workspace/src/gopkg.in/yaml.v2/scannerc.go:937-961 | opening a deeper block keeps every promise of the scanner |
| `YamlScanCore.UnrollGood` | Godeps/_workspace/src/gopkg.in/yaml.v2/scannerc.go:966-987 | closing a block keeps every promise of the scanner |
| `YamlScanCore.DeliverGood` | Godeps/_workspace/src/gopkg.in/yaml.v2/scannerc.go:587-590 | delivering a head that no possible key names keeps every promise of the scanner |
| `YamlFetch.FetchGains` | Godeps/_workspace/src/gopkg.in/yaml.v2/scannerc.go:665-838 | a lexeme gains exactly one BLOCK-END for each saved level deeper than its column, then at most one start of a block, or KEY, and BLOCK-MAPPING-START before it where deeper, put in where a pending key began, and last its own token |
| `YamlFetch.EndGains` | Godeps/_workspace/src/gopkg.in/yaml.v2/scannerc.go:1016-1102 | a lexeme that ends a document closes every block and adds its own token |
| `YamlFetch.FetchWeaves` | Godeps/_workspace/src/gopkg.in/yaml.v2/scannerc.go:665-838 | fetching a lexeme adds its own token behind those of the earlier ones, leaving out starts and ends of blocks and KEYs |
| `YamlFetch.WovenInsert` | Godeps/_workspace/src/gopkg.in/yaml.v2/apic.go:20-25 | a token inserted for a key leaves the order of the others alone |
| `YamlFetch.ShutIs` | Godeps/_workspace/src/gopkg.in/yaml.v2/scannerc.go:966-987 | the loop that unrolls closes exactly the levels deeper than the column |
| `YamlFetch.StaleMeans` | Godeps/_workspace/src/gopkg.in/yaml.v2/scannerc.go:842-863 | a key lapses exactly on a later line or more than 1024 characters on |
| `YamlFetch.KeyNeedsValue` | Godeps/_workspace/src/gopkg.in/yaml.v2/scannerc.go:842-897 | a scalar at the column of the block around it must be followed on its line, or the next token is refused |
| `YamlFetch.OrderedStep` | Godeps/_workspace/src/gopkg.in/yaml.v2/scannerc.go:665-838 | one fetch keeps the order of the lexemes |
| `YamlEager.FetchAllConcat` | Godeps/_workspace/src/gopkg.in/yaml.v2/scannerc.go:626-662 | fetching two lists of lexemes one after the other is fetching their concatenation |
| `YamlEager.AllAgedConcat` | Godeps/_workspace/src/gopkg.in/yaml.v2/scannerc.go:842-863 | keys lapse over two lists of lexemes as over their concatenation |
| `YamlEager.NearStays` | Godeps/_workspace/src/gopkg.in/yaml.v2/scannerc.go:842-863 | a key does not lapse while lexemes start on its line within 1024 characters |
| `YamlFlowScan.NodeRun` | Godeps/_workspace/src/gopkg.in/yaml.v2/scannerc.go:1105-1431 | inside brackets the lexemes of a node, over as many lines as there are, are fetched as the tokens that spell it, and at most one key is saved for it, on its own level |
| `YamlFlowScan.ItemsRun` | Godeps/_workspace/src/gopkg.in/yaml.v2/scannerc.go:1105-1190 | the items of a flow sequence and its bracket become their tokens and leave the level as it was entered |
| `YamlFlowScan.EntriesRun` | Godeps/_workspace/src/gopkg.in/yaml.v2/scannerc.go:1105-1190 | the same for the entries of a flow mapping |
| `YamlFlowScan.EntryRun` | Godeps/_workspace/src/gopkg.in/yaml.v2/scannerc.go:1235-1336 | a key alone, a simple key with its colon close behind, or a question mark and a key become KEY, key, VALUE and value as they should |
| `YamlFlowScan.SimpleRun` | Godeps/_workspace/src/gopkg.in/yaml.v2/scannerc.go:1274-1299 | the colon behind a simple key, itself perhaps a collection, puts KEY in front of the whole key |
| `YamlFlowScan.QuestionRun` | Godeps/_workspace/src/gopkg.in/yaml.v2/scannerc.go:1235-1271 | behind a question mark the key and value become their tokens |
| `YamlFlowScan.ContentRun` | Godeps/_workspace/src/gopkg.in/yaml.v2/scannerc.go:1339-1431 | of properties and text together only the first is saved as a key |
| `YamlFlowScan.InTurn` | Godeps/_workspace/src/gopkg.in/yaml.v2/scannerc.go:1274-1299 | KEY stands where the key was saved |
| `YamlFlowScan.InClose` | Godeps/_workspace/src/gopkg.in/yaml.v2/scannerc.go:1136-1165 | leaving a level forgets its key and no other |
| `YamlBlockScan.BlockRun` | Godeps/_workspace/src/gopkg.in/yaml.v2/scannerc.go:937-1431 | outside brackets the lexemes of a node laid out at a column are fetched as the tokens that spell it, once the blocks it leaves open are closed |
| `YamlBlockScan.DashesRun` | Godeps/_workspace/src/gopkg.in/yaml.v2/scannerc.go:1193-1232 | items behind dashes in one column become the items of one sequence, each closed before the next |
| `YamlBlockScan.SequenceRun` | Godeps/_workspace/src/gopkg.in/yaml.v2/scannerc.go:1193-1232 | a dash deeper than the block opens a sequence, one in the column of a mapping does not |
| `YamlBlockScan.RowsRun` | Godeps/_workspace/src/gopkg.in/yaml.v2/scannerc.go:1235-1336 | entries in one column become the entries of one mapping, opened once |
| `YamlBlockScan.PlainRowRun` | Godeps/_workspace/src/gopkg.in/yaml.v2/scannerc.go:1274-1336 | a simple key on one line, its colon and a value become KEY, key, VALUE and value; in the first row the start of the mapping comes before the key |
| `YamlBlockScan.QuestionRowRun` | Godeps/_workspace/src/gopkg.in/yaml.v2/scannerc.go:1235-1336 | a question mark, a key, and perhaps below it a colon and a value become their tokens |
| `YamlBlockScan.KeyWord` | Godeps/_workspace/src/gopkg.in/yaml.v2/scannerc.go:867-897 | a word on one line where a key may start, a flow collection too, is saved as one key that does not lapse |
| `YamlBlockScan.PlainWord` | Godeps/_workspace/src/gopkg.in/yaml.v2/scannerc.go:1339-1431 | a word deeper than the block becomes its tokens and leaves no required key |
| `YamlBlockScan.Settle` | Godeps/_workspace/src/gopkg.in/yaml.v2/scannerc.go:966-987 | a lexeme in the column of a block closes exactly the deeper ones |
| `YamlBlockScan.TurnFetch` | Godeps/_workspace/src/gopkg.in/yaml.v2/scannerc.go:1274-1299 | the colon puts KEY, and where it is deeper the start of a mapping, in front of the key |
| `YamlDocScan.StreamScans` | Godeps/_workspace/src/gopkg.in/yaml.v2/scannerc.go:571-1431 | however documents are laid out, fetching their lexemes succeeds and the tokens are exactly those they are spelled with: every block opened and closed where it should be, every key marked |
| `YamlDocScan.DocsRun` | Godeps/_workspace/src/gopkg.in/yaml.v2/scannerc.go:1016-1102 | documents one after the other, with their directives and indicators |
| `YamlDocScan.DirectivesRun` | Godeps/_workspace/src/gopkg.in/yaml.v2/scannerc.go:1047-1068 | directives close what was open and become their tokens |
| `YamlDocScan.ResetSettles` | Godeps/_workspace/src/gopkg.in/yaml.v2/scannerc.go:1016-1102 | at a directive, an indicator or the end every block is closed and the key dropped |
| `YamlOnDemand.FetchInStep` | Godeps/_workspace/src/gopkg.in/yaml.v2/scannerc.go:626-662 | dropping keys early and delivering tokens does not change what the next fetch does |
| `YamlOnDemand.OverdueInStep` | Godeps/_workspace/src/gopkg.in/yaml.v2/scannerc.go:626-662 | a required key found lapsed on demand would have been at the next lexeme |
| `YamlOnDemand.StepInStep` | Godeps/_workspace/src/gopkg.in/yaml.v2/scannerc.go:626-662 | after each lexeme the scanner holds what fetching everything so far gives |
| `YamlOnDemand.StaleInStep` | Godeps/_workspace/src/gopkg.in/yaml.v2/scannerc.go:629-653 | so it does when keys are dropped between lexemes |
| `YamlOnDemand.EndIsLast` | Godeps/_workspace/src/gopkg.in/yaml.v2/scannerc.go:1016-1044 | STREAM-END comes from the last lexeme and is the last token |
| `YamlLaying.StreamLaid` | Godeps/_workspace/src/gopkg.in/yaml.v2/scannerc.go:571-1431 | all documents that fit, none of whose block collections is empty, can be laid out |
| `YamlLaying.BlockLaid` | Godeps/_workspace/src/gopkg.in/yaml.v2/scannerc.go:937-1431 | any node can be laid out at any column |
| `YamlLaying.FlowLaid` | Godeps/_workspace/src/gopkg.in/yaml.v2/scannerc.go:1105-1431 | anything that fits inside brackets can be laid out there |
| `YamlLoad.Load` | Godeps/_workspace/src/gopkg.in/yaml.v2/parserc.go:62-170 | scanning on demand and parsing documents, however laid out, gives exactly the events of the trees they stand for |
| `YamlLoad.LayAndLoad` | Godeps/_workspace/src/gopkg.in/yaml.v2/parserc.go:62-170 | all trees whose flags follow from their tags and styles and that have no empty block collection can be laid out so that loading them gives exactly their events |
| `YamlLoad.Scan` | Godeps/_workspace/src/gopkg.in/yaml.v2/scannerc.go:571-597 | the scanner on demand delivers exactly the tokens the documents are spelled with |
| `YamlLoad.NextAlike` | Godeps/_workspace/src/gopkg.in/yaml.v2/parserc.go:93-170 | no move of the parser looks at the places of tokens |
| `YamlLoad.YieldsAlike` | Godeps/_workspace/src/gopkg.in/yaml.v2/parserc.go:93-170 | tokens in other places yield the same events |
| `YamlLoad.LexemesEndOnce` | Godeps/_workspace/src/gopkg.in/yaml.v2/scannerc.go:1016-1044 | tokens that end once come from lexemes that end once |
| `YamlPanic.RequiredKeyNotAllowed` | Godeps/_workspace/src/gopkg.in/yaml.v2/scannerc.go:868-880 | a flow sequence closed on a later line just before the column of the mapping around it makes the word behind it a required key where none is allowed |
| `YamlPanic.FirstOnLineIsAllowed` | Godeps/_workspace/src/gopkg.in/yaml.v2/scannerc.go:868-880 | at the first token of a line outside flow context a required key is always allowed |
| `YamlPanic.ContentRefusedIff` | Godeps/_workspace/src/gopkg.in/yaml.v2/scannerc.go:865-897 | a scalar, alias, anchor or tag is refused exactly for a lapsed required key, for that reason, for a required key it would replace, or for its own text |
| `YamlScanner.Scanner.constructor` | Godeps/_workspace/src/gopkg.in/yaml.v2/apic.go:28-34 | a new scanner is valid and has produced nothing |
| `YamlScanner.Scanner.Scan` | Godeps/_workspace/src/gopkg.in/yaml.v2/scannerc.go:571-597 | delivers the tokens in order; a delivered token never changes, and on every run each possible key names an undelivered token, block starts minus ends equal the indent stack, and leaving out starts and ends of blocks and inserted KEYs the tokens are STREAM-START and those of the lexemes consumed, in order |
| `YamlScanner.Scanner.FetchMoreTokens` | Godeps/_workspace/src/gopkg.in/yaml.v2/scannerc.go:626-662 | ends with a token at the head of the queue that no possible key names |
| `YamlScanner.Scanner.NeedMoreTokens` | Godeps/_workspace/src/gopkg.in/yaml.v2/scannerc.go:629-653 | more tokens are needed exactly when the queue is empty or a possible key names its head |
| `YamlScanner.Scanner.FetchLexeme` | Godeps/_workspace/src/gopkg.in/yaml.v2/scannerc.go:680-838 | what one lexeme makes of the state, refusal included, is exactly what `YamlFetch.Fetched` says: stale keys dropped, deeper blocks closed, then its own tokens |
| `YamlScanner.Scanner.ScanAll` | Godeps/_workspace/src/gopkg.in/yaml.v2/scannerc.go:571-597 | scanning terminates, and without an error it ends with STREAM-END; where marks move forward it succeeds whenever fetching all lexemes at once does and ends the stream, and when it succeeds it has delivered exactly those tokens |
| `YamlScanner.Scanner.FetchNextToken` | Godeps/_workspace/src/gopkg.in/yaml.v2/scannerc.go:665-838 | one lexeme is consumed, or the stream started; delivered tokens stay as they are, the order and the invariant are kept |
| `YamlScanner.Scanner.Dispatch` | Godeps/_workspace/src/gopkg.in/yaml.v2/scannerc.go:697-838 | every kind of lexeme goes to its fetcher, which changes the state exactly as its pure form says, and keeps the invariant |
| `YamlScanner.Scanner.StaleSimpleKeys` | Godeps/_workspace/src/gopkg.in/yaml.v2/scannerc.go:842-863 | exactly the keys on an earlier line or more than 1024 characters back are dropped; a required one among them is an error |
| `YamlScanner.Scanner.SaveSimpleKey` | Godeps/_workspace/src/gopkg.in/yaml.v2/scannerc.go:867-897 | where a key is allowed, only the key of the current level changes, to one for the token about to be appended; the two errors occur exactly under their conditions |
| `YamlScanner.Scanner.RemoveSimpleKey` | Godeps/_workspace/src/gopkg.in/yaml.v2/scannerc.go:900-913 | only the key of the current level is dropped; it is an error exactly when that key is possible and required |
| `YamlScanner.Scanner.DecreaseFlowLevel` | Godeps/_workspace/src/gopkg.in/yaml.v2/scannerc.go:926-932 | the level goes down by one and never below zero, and only its own key goes with it |
| `YamlScanner.Scanner.RollIndent` | Godeps/_workspace/src/gopkg.in/yaml.v2/scannerc.go:937-961 | outside flow context a deeper column pushes the level and appends exactly one block start; otherwise nothing changes |
| `YamlScanner.Scanner.UnrollIndent` | Godeps/_workspace/src/gopkg.in/yaml.v2/scannerc.go:966-987 | closes exactly the levels deeper than the column with one BLOCK-END each, and never pops an empty stack |
| `YamlScanner.Scanner.FetchStreamStart` | Godeps/_workspace/src/gopkg.in/yaml.v2/scannerc.go:990-1013 | the first token is STREAM-START and the level is -1 |
| `YamlScanner.Scanner.ResetIndentAndKey` | Godeps/_workspace/src/gopkg.in/yaml.v2/scannerc.go:1048-1058 | outside flow context every open block gets its BLOCK-END; the key of the current level is dropped, an error exactly when it was required |
| `YamlScanner.Scanner.FetchStreamEnd` | Godeps/_workspace/src/gopkg.in/yaml.v2/scannerc.go:1016-1044 | at flow level zero the blocks are balanced: one BLOCK-END for each open block, then STREAM-END |
| `YamlScanner.Scanner.FetchDirective` | Godeps/_workspace/src/gopkg.in/yaml.v2/scannerc.go:1047-1068 | closes every block, then appends the directive |
| `YamlScanner.Scanner.FetchDocumentIndicator` | Godeps/_workspace/src/gopkg.in/yaml.v2/scannerc.go:1071-1102 | closes every block, then appends the indicator |
| `YamlScanner.Scanner.FetchFlowCollectionStart` | Godeps/_workspace/src/gopkg.in/yaml.v2/scannerc.go:1105-1133 | saves a key for the bracket, enters a level with no key, and appends the token |
| `YamlScanner.Scanner.FetchFlowCollectionEnd` | Godeps/_workspace/src/gopkg.in/yaml.v2/scannerc.go:1136-1165 | leaves the level with its key and appends the token; no key may start right after; an error exactly when a required key was pending |
| `YamlScanner.Scanner.FetchFlowEntry` | Godeps/_workspace/src/gopkg.in/yaml.v2/scannerc.go:1168-1190 | appends the token; a key may start after it |
| `YamlScanner.Scanner.FetchBlockEntry` | Godeps/_workspace/src/gopkg.in/yaml.v2/scannerc.go:1193-1232 | refused exactly where no key is allowed outside flow; otherwise opens a sequence where the column is deeper and appends the token |
| `YamlScanner.Scanner.FetchKey` | Godeps/_workspace/src/gopkg.in/yaml.v2/scannerc.go:1235-1271 | refused exactly where no key is allowed outside flow; otherwise opens a mapping where the column is deeper and appends the token |
| `YamlScanner.Scanner.FetchValue` | Godeps/_workspace/src/gopkg.in/yaml.v2/scannerc.go:1274-1336 | after a possible key, KEY and where needed BLOCK-MAPPING-START are put in before the key inside the undelivered queue; otherwise the value stands alone or is refused |
| `YamlScanner.Scanner.TurnIntoKey` | Godeps/_workspace/src/gopkg.in/yaml.v2/scannerc.go:1279-1299 | the inserted tokens stand at the key, at or after the first undelivered token |
| `YamlScanner.Scanner.ValueOfComplexKey` | Godeps/_workspace/src/gopkg.in/yaml.v2/scannerc.go:1301-1321 | a value without a simple key opens a mapping where the column is deeper, or is refused |
| `YamlScanner.Scanner.FetchContent` | Godeps/_workspace/src/gopkg.in/yaml.v2/scannerc.go:1339-1431 | saves a key for the token and appends it; a key may follow exactly when the token is a plain scalar and a line break was consumed after its last text |
| `YamlScanner.Scanner.FetchBlockScalar` | Godeps/_workspace/src/gopkg.in/yaml.v2/scannerc.go:1377-1393 | drops the key of the level and appends the scalar |
| `Utf8.ValueOfEncoded` | Godeps/_workspace/src/gopkg.in/yaml.v2/readerc.go:197-224 | decoding the bytes of any code point gives it back, and they are well formed |
| `Utf8.EncodedIsWellFormed` | Godeps/_workspace/src/gopkg.in/yaml.v2/readerc.go:211-244 | conversely every well-formed character is the encoding of its value (section 4 of RFC 3629) |
| `Utf8.EncodedExamples` | Godeps/_workspace/src/gopkg.in/yaml.v2/readerc.go:352-378 | the characters of section 7 of RFC 3629 have the bytes given there |
| `YamlChars.CharTests` | Godeps/_workspace/src/gopkg.in/yaml.v2/yamlprivateh.go:58-173 | the byte tests for printable, break and blank characters agree with the character they start |
| `YamlChars.BomTest` | Godeps/_workspace/src/gopkg.in/yaml.v2/yamlprivateh.go:81-83 | the mark test looks at the start of the text, whatever position it is given |
| `YamlQuoted.ReadsBack` | Godeps/_workspace/src/gopkg.in/yaml.v2/emitterc.go:1429-1548 | for every text, start column, width, indent of at least 1, escaping mode and break style, the scanner reads back exactly what the writer wrote |
| `YamlQuoted.PiecesAdmissible` | Godeps/_workspace/src/gopkg.in/yaml.v2/emitterc.go:1435-1541 | whatever the writer chooses, no raw character could be mistaken, and a fold stands only where the scanner will restore the space |
| `YamlQuoted.HexRoundTrip` | Godeps/_workspace/src/gopkg.in/yaml.v2/emitterc.go:1507-1514 | a number written as hexadecimal digits is read back |
| `YamlQuoted.EscapeReads` | Godeps/_workspace/src/gopkg.in/yaml.v2/scannerc.go:2363-2467 | every escape the writer uses is read as the character it stands for |
| `YamlQuoted.HexReads` | Godeps/_workspace/src/gopkg.in/yaml.v2/scannerc.go:2424-2467 | a numeric escape has the digits its letter announces and their value is the character |
| `YamlQuoted.TextReads` | Godeps/_workspace/src/gopkg.in/yaml.v2/scannerc.go:2337-2539 | text without a fold before it is read back from any column and with anything read before it |
| `YamlQuoted.FoldedTextReads` | Godeps/_workspace/src/gopkg.in/yaml.v2/scannerc.go:2488-2538 | text after a folded space is read back with that one space |
| `YamlQuoted.GapReads` | Godeps/_workspace/src/gopkg.in/yaml.v2/scannerc.go:2488-2538 | spaces written as such are kept |
| `YamlQuoted.FoldReads` | Godeps/_workspace/src/gopkg.in/yaml.v2/scannerc.go:2501-2528 | a line break and its indentation are read as one space |
| `YamlQuotedCode.Writer.WriteDoubleQuotedScalar` | Godeps/_workspace/src/gopkg.in/yaml.v2/emitterc.go:1429-1548 | the loop over the bytes writes exactly the specified text between quotes |
| `YamlQuotedCode.Writer.WriteCharacter` | Godeps/_workspace/src/gopkg.in/yaml.v2/emitterc.go:1435-1541 | one character is written as an escape, a space, a folded space or itself, as the specification chooses |
| `YamlQuotedCode.Writer.WriteIndent` | Godeps/_workspace/src/gopkg.in/yaml.v2/emitterc.go:1201-1219 | a line break and spaces up to the indent |
| `YamlQuotedCode.Writer.WriteIndicator` | Godeps/_workspace/src/gopkg.in/yaml.v2/emitterc.go:1221-1234 | a space where one is needed, then the indicator |
| `YamlQuotedCode.Writer.PutEscape` | Godeps/_workspace/src/gopkg.in/yaml.v2/emitterc.go:1460-1519 | the one-letter escape, or x, u or U with 2, 4 or 8 digits |
| `YamlQuotedCode.Writer.PutHex` | Godeps/_workspace/src/gopkg.in/yaml.v2/emitterc.go:1507-1514 | the digits from the highest down |
| `YamlQuotedCode.Writer.Write` | Godeps/_workspace/src/gopkg.in/yaml.v2/emitterc.go:51-76 | copies one whole character and moves past it |
| `YamlQuotedCode.DecodeAt` | Godeps/_workspace/src/gopkg.in/yaml.v2/emitterc.go:1440-1458 | the shifts and masks give the character at the position |
| `YamlQuotedCode.WriteAndScan` | Godeps/_workspace/src/gopkg.in/yaml.v2/scannerc.go:2304-2557 | the writer followed by the scanner on its output gives the text back |
| `YamlQuotedCode.QuotedScanner.ScanDoubleQuotedScalar` | Godeps/_workspace/src/gopkg.in/yaml.v2/scannerc.go:2304-2557 | the nested loops compute what the specification reads: the value and the rest, or an error |
| `YamlQuotedCode.QuotedScanner.ScanText` | Godeps/_workspace/src/gopkg.in/yaml.v2/scannerc.go:2337-2486 | the loop over text stops at the closing quote, at blanks, or at an error |
| `YamlQuotedCode.QuotedScanner.ScanEscape` | Godeps/_workspace/src/gopkg.in/yaml.v2/scannerc.go:2363-2467 | one escape is read, or refused when malformed or not a scalar value |
| `YamlQuotedCode.QuotedScanner.ScanBlanks` | Godeps/_workspace/src/gopkg.in/yaml.v2/scannerc.go:2488-2538 | blanks and breaks are kept or folded as the specification joins them |
| `YamlLines.TextRead` | Godeps/_workspace/src/gopkg.in/yaml.v2/scannerc.go:2324-2557 | a text of words between spacings is scanned as its words with what each spacing stands for: blanks kept, breaks folded, escaped breaks dropped |
| `YamlLines.ScanLines` | Godeps/_workspace/src/gopkg.in/yaml.v2/scannerc.go:2304-2557 | the loops of the scanner on such a text give that value and stop behind the quote |
| `YamlLines.PartsRead` | Godeps/_workspace/src/gopkg.in/yaml.v2/scannerc.go:2324-2557 | the same from any column and behind any text |
| `YamlLines.SpacingReads` | Godeps/_workspace/src/gopkg.in/yaml.v2/scannerc.go:2488-2538 | one spacing is read as what it stands for |
| `YamlLines.FoldingMeans` | Godeps/_workspace/src/gopkg.in/yaml.v2/scannerc.go:2514-2534 | one line break is a space, k of them are k - 1 line feeds, a first U+2028 or U+2029 is kept, and behind a backslash the break is dropped |
| `YamlQuotedForm.WrittenForm` | Godeps/_workspace/src/gopkg.in/yaml.v2/emitterc.go:1429-1548 | where breaks are not allowed the text stays on one line, and without unicode it is printable ASCII |
| `YamlQuotedForm.WrittenVerbatim` | Godeps/_workspace/src/gopkg.in/yaml.v2/emitterc.go:1429-1548 | there printable ASCII without quotes and backslashes is written as it is |
| `YamlQuotedForm.EscapesWritten` | Godeps/_workspace/src/gopkg.in/yaml.v2/emitterc.go:1460-1519 | examples of the letters and digits of escapes |
| `YamlQuotedForm.EscapesRead` | Godeps/_workspace/src/gopkg.in/yaml.v2/scannerc.go:2373-2420 | the characters all one-letter escapes stand for |
| `YamlQuotedRead.WriteReadAndScan` | Godeps/_workspace/src/gopkg.in/yaml.v2/emitterc.go:1429-1548 | what the writer wrote for any text is accepted by the reader and scanned back to that text |
| `YamlQuotedRead.OutputIsText` | Godeps/_workspace/src/gopkg.in/yaml.v2/emitterc.go:1429-1548 | the output of the writer is well-formed text in the YAML character set, for any characters and settings |
| `YamlQuotedRead.PieceIsText` | Godeps/_workspace/src/gopkg.in/yaml.v2/emitterc.go:1435-1541 | what is written raw is printable and what is not is written in ASCII |
| `YamlReader.Reader.ReadToEnd` | Godeps/_workspace/src/gopkg.in/yaml.v2/readerc.go:91-391 | whatever the size of the requests, without a UTF-16 mark reading to the end succeeds exactly on well-formed text in the YAML character set, and then the characters are those of the input without its mark |
| `YamlReader.Reader.UpdateBuffer` | Godeps/_workspace/src/gopkg.in/yaml.v2/readerc.go:91-391 | afterwards the wanted characters are in the buffer or all there are and one NUL; the text handed over is a prefix of the whole |
| `YamlReader.Reader.WholeInput` | Godeps/_workspace/src/gopkg.in/yaml.v2/readerc.go:91-391 | at the end exactly the text of the input was handed over |
| `YamlReader.Reader.ReadAll` | Godeps/_workspace/src/gopkg.in/yaml.v2/scannerc.go:515-535 | without a UTF-16 mark, reading characters up to the NUL succeeds exactly on text and gives the whole of it |
| `YamlReader.Reader.Read` | Godeps/_workspace/src/gopkg.in/yaml.v2/scannerc.go:515-535 | one whole character is copied and consumed |
| `YamlReader.Reader.AtHead` | Godeps/_workspace/src/gopkg.in/yaml.v2/readerc.go:381-387 | the next byte is NUL exactly at the end of the text |
| `YamlReader.Reader.Skip` | Godeps/_workspace/src/gopkg.in/yaml.v2/scannerc.go:491-496 | consuming a character moves by its width and stays inside the buffer |
| `YamlReader.Reader.UpdateRawBuffer` | Godeps/_workspace/src/gopkg.in/yaml.v2/readerc.go:56-85 | the bytes ahead stay the same and either more input is read, the end is noticed, or the buffer was full |
| `YamlReader.Reader.DetermineEncoding` | Godeps/_workspace/src/gopkg.in/yaml.v2/readerc.go:25-53 | the encoding follows the byte order mark, which is left out of the text |
| `YamlReader.Reader.DecodeNext` | Godeps/_workspace/src/gopkg.in/yaml.v2/readerc.go:169-350 | a character is reported only if its encoding is next and it is allowed; a refusal means no allowed character starts there; more input is asked for only when it can help |
| `YamlReader.Reader.Store` | Godeps/_workspace/src/gopkg.in/yaml.v2/readerc.go:352-378 | the bytes of one character move from the raw buffer to the buffer |
| `YamlReader.Reader.DecodeRawBuffer` | Godeps/_workspace/src/gopkg.in/yaml.v2/readerc.go:140-379 | the raw buffer is decoded up to an incomplete character at its end, without overflowing the buffer |
| `YamlReader.Reader.MoveToFront` | Godeps/_workspace/src/gopkg.in/yaml.v2/readerc.go:113-122 | moving the unread characters to the front changes none of them |
| `YamlReader.Reader.Fill` | Godeps/_workspace/src/gopkg.in/yaml.v2/readerc.go:127-391 | refilling goes on until the request is met or the input ends |
| `YamlReader.Reader.FillOnce` | Godeps/_workspace/src/gopkg.in/yaml.v2/readerc.go:131-379 | one round keeps the 1536-byte buffer below its size and makes progress in the input |
| `YamlReader.Reader.AppendNul` | Godeps/_workspace/src/gopkg.in/yaml.v2/readerc.go:381-387 | at the end of the input one NUL is appended |
| `YamlReader.UniqueSplit` | Godeps/_workspace/src/gopkg.in/yaml.v2/readerc.go:91-391 | UTF-8 text can be cut only between characters, so decoding in chunks cannot differ from decoding the whole |
| `YamlReader.StuckIsNotText` | Godeps/_workspace/src/gopkg.in/yaml.v2/readerc.go:169-350 | when what is left does not start with an allowed character the whole input is not text |
| `YamlReader.NotWell` | Godeps/_workspace/src/gopkg.in/yaml.v2/readerc.go:169-350 | malformed or disallowed bytes start no allowed character |
| `YamlUtf16.LittleEndianIff` | Godeps/_workspace/src/gopkg.in/yaml.v2/readerc.go:245-331 | raw bytes decode to characters exactly when they are their UTF-16 encoding, low byte first |
| `YamlUtf16.BigEndianIff` | Godeps/_workspace/src/gopkg.in/yaml.v2/readerc.go:245-252 | input with the high byte first comes out right exactly when every code unit of its characters has two equal bytes |
| `YamlUtf16.BigEndianMisread` | Godeps/_workspace/src/gopkg.in/yaml.v2/readerc.go:245-252 | the letter a, high byte first, is read as another character |
| `YamlUtf16.StoredIff` | Godeps/_workspace/src/gopkg.in/yaml.v2/readerc.go:352-378 | whatever the buffer held, the decoded characters stand in it as UTF-8 text exactly when each is as long in UTF-8 as in UTF-16 |
| `YamlUtf16.SameWidthIff` | Godeps/_workspace/src/gopkg.in/yaml.v2/readerc.go:352-378 | these are the characters from 0x80 to 0x7FF and from 0x10000 on |
| `YamlUtf16.LettersGarbled` | Godeps/_workspace/src/gopkg.in/yaml.v2/readerc.go:352-378 | two ASCII letters are stored with a NUL behind each |
| `YamlUtf16.PairExample` | Godeps/_workspace/src/gopkg.in/yaml.v2/readerc.go:254-331 | the surrogate pair of section 3.2 of RFC 2781 |
| `YamlUtf16.DecodeRaw` | Godeps/_workspace/src/gopkg.in/yaml.v2/readerc.go:140-379 | the loop stores the characters up to an incomplete or refused one and stops with an error exactly when it is refused, or incomplete at the end of the input |
| `YamlUtf16.DecodeAt` | Godeps/_workspace/src/gopkg.in/yaml.v2/readerc.go:276-331 | one character by the surrogate tests of the loop body |
| `YamlDecoder.DecodeIff` | Godeps/_workspace/src/gopkg.in/yaml.v2/decode.go:276-321 | on every document decoding succeeds with a value exactly when the aliases can be written out at some depth, where the decoder lets them, and the tree that results decodes to that value; only keys that name the text of a merge key stay aliases |
| `YamlDecoder.DecodeInlinedIff` | Godeps/_workspace/src/gopkg.in/yaml.v2/decode.go:276-321 | where no merge value is an alias of a sequence and no key an alias of a merge key, decoding succeeds with a value exactly when writing every alias out ends and the resulting tree decodes to it |
| `YamlDecoder.DecodeIsWritten` | Godeps/_workspace/src/gopkg.in/yaml.v2/decode.go:276-321 | from any set of active aliases, decoding is decoding the written-out tree, failures included |
| `YamlDecoder.UnfoldIff` | Godeps/_workspace/src/gopkg.in/yaml.v2/decode.go:309-321 | the active set refuses an alias exactly when no depth is enough to write it out |
| `YamlDecoder.UnfoldIsExpand` | Godeps/_workspace/src/gopkg.in/yaml.v2/decode.go:309-321 | what the active set lets through is the full expansion, within as many aliases as there are idle anchors |
| `YamlDecoder.ExpandIsUnfold` | Godeps/_workspace/src/gopkg.in/yaml.v2/decode.go:309-321 | an expansion that ends never meets an alias inside itself |
| `YamlDecoder.PairsWritten` | Godeps/_workspace/src/gopkg.in/yaml.v2/decode.go:521-554 | the entries of a mapping are those of its written-out form, merges included |
| `YamlDecoder.MergeWritten` | Godeps/_workspace/src/gopkg.in/yaml.v2/decode.go:620-647 | a merge value decodes as its written-out form, unless it is an alias of a sequence |
| `YamlDecoder.AliasedSequenceMerge` | Godeps/_workspace/src/gopkg.in/yaml.v2/decode.go:624-629 | a merge value that is an alias of a sequence of mappings is refused although the sequence in place is taken |
| `YamlDecoder.AliasedMergeKey` | Godeps/_workspace/src/gopkg.in/yaml.v2/decode.go:649-651 | an alias of the text of a merge key is an ordinary key although the text in place is a merge key |
| `YamlDecoder.LastPairWins` | Godeps/_workspace/src/gopkg.in/yaml.v2/decode.go:521-554 | without merge keys a mapping decodes to the keys of its pairs, each with the value of its last pair |
| `YamlDecoder.LastEntryWins` | Godeps/_workspace/src/gopkg.in/yaml.v2/decode.go:521-554 | merge keys included, a key has the value of the last pair or merge that adds it |
| `YamlDecoder.PairsOver` | Godeps/_workspace/src/gopkg.in/yaml.v2/decode.go:521-554 | the entries of a mapping replace those there were, whatever they were |
| `YamlDecoder.SequenceDecodes` | Godeps/_workspace/src/gopkg.in/yaml.v2/decode.go:464-490 | a sequence decodes to a list exactly when the list has the values of its items, in order |
| `YamlDecoder.FirstItemWins` | Godeps/_workspace/src/gopkg.in/yaml.v2/decode.go:620-647 | of the items of a merged sequence the first that has a key gives its value; the merge fails exactly when an item does |
| `YamlDecoder.DocumentAnchors` | Godeps/_workspace/src/gopkg.in/yaml.v2/decode.go:98-161 | no anchor of a built document is on an alias |
| `YamlDecoder.Decoder.Unmarshal` | Godeps/_workspace/src/gopkg.in/yaml.v2/decode.go:276-298 | terminates on every tree and anchor table, gives the specified answer, and restores the active set on success |
| `YamlDecoder.Decoder.Alias` | Godeps/_workspace/src/gopkg.in/yaml.v2/decode.go:309-321 | an unknown or active anchor fails; otherwise the anchored node is decoded with the alias active |
| `YamlDecoder.Decoder.Sequence` | Godeps/_workspace/src/gopkg.in/yaml.v2/decode.go:464-490 | the items in order |
| `YamlDecoder.Decoder.Mapping` | Godeps/_workspace/src/gopkg.in/yaml.v2/decode.go:494-554 | entries are added in order, collections as keys are refused, merge keys are merged |
| `YamlDecoder.Decoder.Merge` | Godeps/_workspace/src/gopkg.in/yaml.v2/decode.go:620-647 | a sequence is merged from its last item to its first |
| `YamlDecoder.Decoder.MergeOne` | Godeps/_workspace/src/gopkg.in/yaml.v2/decode.go:620-647 | a mapping or an alias of one is merged; anything else is refused |
| `ProtoWire.VarintRoundTrip` | Godeps/_workspace/src/github.com/golang/protobuf/proto/encode.go:99-106 | every 64-bit number is read back from its varint, whatever follows |
| `ProtoWire.VarintReadIff` | Godeps/_workspace/src/github.com/golang/protobuf/proto/decode.go:81-104 | a varint is read exactly when the input starts with at most nine bytes above 127 and one below 128; its value is cut to 64 bits |
| `ProtoWire.VarintLength` | Godeps/_workspace/src/github.com/golang/protobuf/proto/encode.go:72-106 | a varint of a number below 128 to the k has at most k bytes |
| `ProtoWire.SizeVarint` | Godeps/_workspace/src/github.com/golang/protobuf/proto/encode.go:108-117 | counts exactly the bytes of the varint |
| `ProtoWire.FixedRoundTrip` | Godeps/_workspace/src/github.com/golang/protobuf/proto/decode.go:109-146 | a number that fits is read back from its little-endian bytes |
| `ProtoWire.FixedKeepsLow` | Godeps/_workspace/src/github.com/golang/protobuf/proto/encode.go:122-149 | the bytes hold the low part of any number |
| `ProtoWire.ZigzagMeaning` | Godeps/_workspace/src/github.com/golang/protobuf/proto/encode.go:158-173 | small magnitudes get small codes: 0, -1, 1, -2 become 0, 1, 2, 3 and so on, and the two directions undo each other |
| `ProtoWire.DelimitedRoundTrip` | Godeps/_workspace/src/github.com/golang/protobuf/proto/decode.go:178-204 | counted bytes below 2 to the 63 are read back |
| `ProtoWire.SkipIff` | Godeps/_workspace/src/github.com/golang/protobuf/proto/decode.go:246-280 | skipping succeeds exactly on one well-formed payload of the wire type at any group nesting, and stops right after it |
| `ProtoWire.SkipComplete` | Godeps/_workspace/src/github.com/golang/protobuf/proto/decode.go:246-280 | every well-formed payload is skipped whole |
| `ProtoWire.SkipSound` | Godeps/_workspace/src/github.com/golang/protobuf/proto/decode.go:246-280 | whatever is skipped is a well-formed payload, spelt in the bytes that were there |
| `ProtoWire.Skip` | Godeps/_workspace/src/github.com/golang/protobuf/proto/decode.go:246-280 | a successful skip always advances and leaves a tail of the input |
| `ProtoWire.SavedIsOriginalIff` | Godeps/_workspace/src/github.com/golang/protobuf/proto/decode.go:219-243 | the bytes saved for an unknown field are its own exactly when its tag was spelt in the shortest way |
| `ProtoBits.ZigzagBitsAre` | Godeps/_workspace/src/github.com/golang/protobuf/proto/encode.go:158-173 | the shift and exclusive-or of the encoder compute the zigzag number, bit by bit, on words of any width |
| `ProtoBits.UnzigzagBitsAre` | Godeps/_workspace/src/github.com/golang/protobuf/proto/decode.go:151-170 | those of the decoder compute its inverse |
| `ProtoBits.ZigzagBitsRoundTrip` | Godeps/_workspace/src/github.com/golang/protobuf/proto/decode.go:151-170 | encoder and decoder undo each other on every word of every width |
| `ProtoBits.Widths` | Godeps/_workspace/src/github.com/golang/protobuf/proto/encode.go:158-173 | the widths of the format are 32 and 64 bits |
| `ProtoRequired.ReportsIff` | Godeps/_workspace/src/github.com/golang/protobuf/proto/decode.go:403-434 | on all message types and bytes a decoded message that lacks a required field outside every group is reported, exactly for the schemas in which every required field with a tag above 64 is the only one of its type or a message that no bytes decode into without a complaint |
| `ProtoRequired.MissingIsReported` | Godeps/_workspace/src/github.com/golang/protobuf/proto/decode.go:403-434 | one half: in such a schema nothing missing goes unreported |
| `ProtoRequired.FooledBy` | Godeps/_workspace/src/github.com/golang/protobuf/proto/decode.go:413-419 | the other half: any other such field, sent as often as there are required fields, hides the rest |
| `ProtoRequired.TimesRead` | Godeps/_workspace/src/github.com/golang/protobuf/proto/decode.go:413-419 | each reading of a field with a tag above 64 takes one off the counter |
| `ProtoRequired.UnmarshalAnswers` | Godeps/_workspace/src/github.com/golang/protobuf/proto/decode.go:344-437 | whether decoding succeeds, complains and where it stops does not depend on the message read into |
| `ProtoRequired.SlotAnswers` | Godeps/_workspace/src/github.com/golang/protobuf/proto/decode.go:389-402 | the same of one field |
| `ProtoRequired.LargeTagFoolsCounter` | Godeps/_workspace/src/github.com/golang/protobuf/proto/decode.go:413-419 | a required field with a tag above 64 sent twice hides another that is never sent |
| `ProtoRequired.UnmarshalReports` | Godeps/_workspace/src/github.com/golang/protobuf/proto/decode.go:344-437 | the count of required fields not seen is exact while fields are read, so nothing missing goes unreported unless it was missing below from the start |
| `ProtoRequired.SlotReports` | Godeps/_workspace/src/github.com/golang/protobuf/proto/decode.go:389-402 | a field that is read reports what it leaves missing below |
| `ProtoRequired.UnseenStep` | Godeps/_workspace/src/github.com/golang/protobuf/proto/decode.go:405-412 | the bitmap takes one field off the count the first time its tag is seen |
| `ProtoFilling.MuteIsUnfilled` | Godeps/_workspace/src/github.com/golang/protobuf/proto/decode.go:403-434 | read off the schema: a type decodes without a complaint from no bytes when it can never be filled, and only then unless the filling is too long to be announced |
| `ProtoFilling.QuietFills` | Godeps/_workspace/src/github.com/golang/protobuf/proto/decode.go:344-437 | bytes that decode without a complaint fill every required field, or one with a tag above 64 |
| `ProtoFilling.FillingQuiet` | Godeps/_workspace/src/github.com/golang/protobuf/proto/decode.go:344-437 | a filling decodes without a complaint |
| `ProtoFilling.ComplaintStays` | Godeps/_workspace/src/github.com/golang/protobuf/proto/decode.go:395-402 | a complaint from below is never taken back |
| `ProtoMessage.ScalarRoundTrip` | Godeps/_workspace/src/github.com/golang/protobuf/proto/decode.go:454-513 | a scalar of any word comes back through any coder that keeps the word, whatever follows it |
| `ProtoMessage.BoolTakesOneByte` | Godeps/_workspace/src/github.com/golang/protobuf/proto/encode.go:287-317 | a boolean takes one byte in every coder allowed for it |
| `ProtoMessage.FixedIgnoresSign` | Godeps/_workspace/src/github.com/golang/protobuf/proto/encode.go:328-337 | the four bytes of a sign-extended word are those of the word |
| `ProtoKnown.WidenMeans` | Godeps/_workspace/src/github.com/golang/protobuf/proto/encode.go:328-337 | the 64 bits written for a word stand for the same signed number |
| `ProtoKnown.NarrowMeans` | Godeps/_workspace/src/github.com/golang/protobuf/proto/decode.go:454-513 | a word keeps the number it has room for, and otherwise what is left modulo its size |
| `ProtoKnown.SameNumberSameBytes` | Godeps/_workspace/src/github.com/golang/protobuf/proto/encode.go:320-337 | words of any width write the same bytes for the same number |
| `ProtoKnown.NegativeTakesTen` | Godeps/_workspace/src/github.com/golang/protobuf/proto/encode.go:328-337 | a negative number takes ten bytes, of 32 bits too |
| `ProtoKnown.WidthIsInvisible` | Godeps/_workspace/src/github.com/golang/protobuf/proto/encode.go:320-337 | a message with an int32 field, required, optional or of any other label, has the bytes of the one with an int64 field of that number |
| `ProtoGolden.MessageEncoded` | Godeps/_workspace/src/github.com/golang/protobuf/proto/all_test.go:565-588 | the test message has the bytes the test gives for it |
| `ProtoGolden.PackedEncoded` | Godeps/_workspace/src/github.com/golang/protobuf/proto/all_test.go:842-895 | packed values have the bytes the test gives for them |
| `ProtoGolden.PackedSlots` | Godeps/_workspace/src/github.com/golang/protobuf/proto/all_test.go:842-895 | a packed field has its tag, its length in bytes and its values |
| `ProtoMerge.MessageMerges` | Godeps/_workspace/src/github.com/golang/protobuf/proto/decode.go:344-437 | decoding the encoding of a message into another merges it: set fields replaced, messages merged, repeated fields and unknown bytes appended |
| `ProtoMerge.TwoEncodingsMerge` | Godeps/_workspace/src/github.com/golang/protobuf/proto/decode.go:315-341 | two encodings one after the other decode to the two messages merged |
| `ProtoMerge.GroupMerges` | Godeps/_workspace/src/github.com/golang/protobuf/proto/decode.go:742-750 | the same between group markers |
| `ProtoMerge.ValueMerges` | Godeps/_workspace/src/github.com/golang/protobuf/proto/decode.go:753-827 | one value is merged into its slot |
| `ProtoMerge.PackedMerges` | Godeps/_workspace/src/github.com/golang/protobuf/proto/decode.go:556-645 | a packed field is added to the values there are |
| `ProtoMerge.PackedOrNot` | Godeps/_workspace/src/github.com/golang/protobuf/proto/decode.go:383-394 | a repeated field takes packed and single values alike, whichever way its descriptor writes them |
| `ProtoDecode.Unmarshal` | Godeps/_workspace/src/github.com/golang/protobuf/proto/decode.go:344-437 | decoding any bytes ends, and a message that comes out is well shaped with its unknown bytes in shortest-tag form |
| `ProtoDecode.DecodeSlot` | Godeps/_workspace/src/github.com/golang/protobuf/proto/decode.go:389-402 | decoding one field keeps its slot well shaped and leaves a tail of the input |
| `ProtoDecode.UnknownFieldsAppend` | Godeps/_workspace/src/github.com/golang/protobuf/proto/decode.go:219-243 | unknown fields kept one after the other stay well formed |
| `ProtoDecode.SavedIsUnknown` | Godeps/_workspace/src/github.com/golang/protobuf/proto/decode.go:219-243 | what is saved for a skipped field is a well-formed unknown field |
| `ProtoDecode.SkipStaysLocal` | Godeps/_workspace/src/github.com/golang/protobuf/proto/decode.go:246-280 | skipping looks at no byte after the payload |
| `ProtoRoundTrip.MessageReads` | Godeps/_workspace/src/github.com/golang/protobuf/proto/decode.go:344-437 | decoding the encoding of any well-shaped message into an empty one gives it back, unknown bytes included, and reports a missing required field exactly when one is unset outside every group |
| `ProtoRoundTrip.GroupReads` | Godeps/_workspace/src/github.com/golang/protobuf/proto/decode.go:742-750 | the same between group markers, where nothing is reported |
| `ProtoRoundTrip.CompleteReads` | Godeps/_workspace/src/github.com/golang/protobuf/proto/encode.go:1180-1213 | with every required field set the message comes back without complaint |
| `ProtoRoundTrip.EncodeInjective` | Godeps/_workspace/src/github.com/golang/protobuf/proto/encode.go:1180-1213 | two messages with the same bytes are the same message |
| `ProtoRoundTrip.ReencodingIsStable` | Godeps/_workspace/src/github.com/golang/protobuf/proto/decode.go:344-437 | decoding any bytes, encoding the result and decoding again changes nothing more |
| `ProtoRoundTrip.MissingIsIncomplete` | Godeps/_workspace/src/github.com/golang/protobuf/proto/decode.go:422-435 | what the decoder reports as missing the encoder reported too |
| `ProtoRoundTrip.IncompleteIsMissing` | Godeps/_workspace/src/github.com/golang/protobuf/proto/decode.go:422-435 | without groups the two agree on every message |
| `ProtoRoundTrip.GroupHidesMissing` | Godeps/_workspace/src/github.com/golang/protobuf/proto/decode.go:357-362 | with a group the decoder can miss an unset required field that the encoder reported |
| `ProtoRoundTrip.SlotsRead` | Godeps/_workspace/src/github.com/golang/protobuf/proto/decode.go:349-421 | the fields are read back in tag order and the required counter ends at the number of unset required fields |
| `ProtoRoundTrip.ValuesRead` | Godeps/_workspace/src/github.com/golang/protobuf/proto/decode.go:648-667 | the values of a field are read back one by one, each counted once |
| `ProtoRoundTrip.ValueReads` | Godeps/_workspace/src/github.com/golang/protobuf/proto/decode.go:753-827 | one value is read back into the slot that holds the values before it |
| `ProtoRoundTrip.PackedReads` | Godeps/_workspace/src/github.com/golang/protobuf/proto/decode.go:556-645 | a packed field is read back whole, booleans by count and other words by length |
| `ProtoRoundTrip.UnknownReads` | Godeps/_workspace/src/github.com/golang/protobuf/proto/decode.go:367-382 | unknown bytes are appended field by field exactly as they were |
| `ProtoBuffer.TagCode` | Godeps/_workspace/src/github.com/golang/protobuf/proto/properties.go:533-546 | the precalculated tag code is the varint of tag and wire type and fits its eight bytes |
| `ProtoBuffer.Buffer.constructor` | Godeps/_workspace/src/github.com/golang/protobuf/proto/encode.go:718-727 | a new buffer is empty |
| `ProtoBuffer.Buffer.Append` | Godeps/_workspace/src/github.com/golang/protobuf/proto/encode.go:99-106 | one byte is appended, in place while the backing array has room |
| `ProtoBuffer.Buffer.EncodeVarint` | Godeps/_workspace/src/github.com/golang/protobuf/proto/encode.go:99-106 | appends the varint and spares what lies beyond it in the backing array |
| `ProtoBuffer.Buffer.EncodeFixed` | Godeps/_workspace/src/github.com/golang/protobuf/proto/encode.go:122-149 | appends the little-endian bytes |
| `ProtoBuffer.Buffer.EncodeRawBytes` | Godeps/_workspace/src/github.com/golang/protobuf/proto/encode.go:182-199 | appends the length and the bytes |
| `ProtoBuffer.Buffer.EncodeScalar` | Godeps/_workspace/src/github.com/golang/protobuf/proto/encode.go:99-173 | appends what the coder of the field writes |
| `ProtoBuffer.Buffer.PatchLength` | Godeps/_workspace/src/github.com/golang/protobuf/proto/encode.go:1240-1265 | leaves the prefix, the varint of the body length and the body, after an overlapping shift left or right and a truncation that is undone |
| `ProtoBuffer.Buffer.MakeRoom` | Godeps/_workspace/src/github.com/golang/protobuf/proto/encode.go:1248-1259 | the body is moved whole so that exactly the length fits before it |
| `ProtoBuffer.Buffer.MoveRight` | Godeps/_workspace/src/github.com/golang/protobuf/proto/encode.go:1250-1253 | an overlapping move toward higher indices loses nothing |
| `ProtoBuffer.Buffer.MoveLeft` | Godeps/_workspace/src/github.com/golang/protobuf/proto/encode.go:1254-1258 | an overlapping move toward lower indices loses nothing |
| `ProtoBuffer.Buffer.EncodeStruct` | Godeps/_workspace/src/github.com/golang/protobuf/proto/encode.go:1180-1213 | appends exactly the encoding of the message and reports an unset required field anywhere in it |
| `ProtoBuffer.Buffer.EncodeField` | Godeps/_workspace/src/github.com/golang/protobuf/proto/encode.go:1185-1202 | appends exactly the encoding of the field |
| `ProtoBuffer.Buffer.EncodePacked` | Godeps/_workspace/src/github.com/golang/protobuf/proto/encode.go:617-866 | appends the tag, the length and the values, the length of booleans being their number |
| `ProtoBuffer.Buffer.EncodeOne` | Godeps/_workspace/src/github.com/golang/protobuf/proto/encode.go:464-575 | appends exactly the encoding of one value, a nested message behind its patched length |
| `ProtoBuffer.Buffer.EncodeLengthAndStruct` | Godeps/_workspace/src/github.com/golang/protobuf/proto/encode.go:1235-1265 | appends the counted encoding of the message |
| `ProtoBuffer.SizeStruct` | Godeps/_workspace/src/github.com/golang/protobuf/proto/encode.go:1215-1230 | the computed size of every message equals the length of its encoding |
| `ProtoBuffer.SizeField` | Godeps/_workspace/src/github.com/golang/protobuf/proto/encode.go:607-1038 | the size of a field, tags counted up front, equals the length of its encoding |
| `ProtoBuffer.SizePacked` | Godeps/_workspace/src/github.com/golang/protobuf/proto/encode.go:635-883 | the size of a packed field equals the length of its encoding |
| `ProtoBuffer.SizeBody` | Godeps/_workspace/src/github.com/golang/protobuf/proto/encode.go:485-587 | the size of one value without its tags |
| `ProtoBuffer.SizeScalar` | Godeps/_workspace/src/github.com/golang/protobuf/proto/encode.go:108-177 | the size of a scalar equals the length of its bytes |
| `ProtoBuffer.TagsUpFront` | Godeps/_workspace/src/github.com/golang/protobuf/proto/encode.go:969-1038 | multiplying the tag size by the number of values gives the same total |
| `ProtoReader.TagMap.Get` | Godeps/_workspace/src/github.com/golang/protobuf/proto/properties.go:99-109 | finds the field number put for the tag |
| `ProtoReader.TagMap.Put` | Godeps/_workspace/src/github.com/golang/protobuf/proto/properties.go:111-123 | afterwards that tag has that number and every other tag is as before |
| `ProtoReader.BuildTags` | Godeps/_workspace/src/github.com/golang/protobuf/proto/properties.go:689-700 | the index finds exactly the field with the tag |
| `ProtoReader.Reader.DecodeVarint` | Godeps/_workspace/src/github.com/golang/protobuf/proto/decode.go:81-104 | the loop reads what the wire format reads and leaves the index alone on failure |
| `ProtoReader.Reader.DecodeFixed` | Godeps/_workspace/src/github.com/golang/protobuf/proto/decode.go:109-146 | reads the little-endian word or fails at the end of the input |
| `ProtoReader.Reader.DecodeRawBytes` | Godeps/_workspace/src/github.com/golang/protobuf/proto/decode.go:178-204 | reads the counted bytes, refusing a negative or too long count |
| `ProtoReader.Reader.DecodeScalar` | Godeps/_workspace/src/github.com/golang/protobuf/proto/decode.go:81-170 | reads what the coder of the field reads |
| `ProtoReader.Reader.SkipPayload` | Godeps/_workspace/src/github.com/golang/protobuf/proto/decode.go:246-280 | terminates on every byte string and moves exactly as the wire format skips |
| `ProtoReader.Reader.SkipToEndGroup` | Godeps/_workspace/src/github.com/golang/protobuf/proto/decode.go:261-275 | skips fields until an end-group wire type |
| `ProtoReader.Reader.SkipAndSave` | Godeps/_workspace/src/github.com/golang/protobuf/proto/decode.go:219-243 | returns the bytes to keep for the unknown field |
| `ProtoReader.Reader.DecodePacked` | Godeps/_workspace/src/github.com/golang/protobuf/proto/decode.go:556-645 | reads a packed field as specified for its word |
| `ProtoReader.Reader.UnmarshalType` | Godeps/_workspace/src/github.com/golang/protobuf/proto/decode.go:344-437 | the loop over fields computes the specified message, status and rest |
| `ProtoReader.Reader.DecodeInto` | Godeps/_workspace/src/github.com/golang/protobuf/proto/decode.go:389-402 | one field is decoded by the decoder its wire type selects |
| `ProtoReader.Reader.DecodeDelimitedInto` | Godeps/_workspace/src/github.com/golang/protobuf/proto/decode.go:742-827 | a nested message is read from its own bytes and the buffer restored; a group is read in place |
| `ProtoCodec.Marshal` | Godeps/_workspace/src/github.com/golang/protobuf/proto/encode.go:213-258 | the bytes are the encoding of the message and the error tells of an unset required field anywhere in it |
| `ProtoCodec.UnmarshalBytes` | Godeps/_workspace/src/github.com/golang/protobuf/proto/decode.go:298-341 | any bytes give a well-shaped message or an error, as the decoder specifies |
| `ProtoCodec.MarshalAndBack` | Godeps/_workspace/src/github.com/golang/protobuf/proto/encode.go:213-258 | every well-shaped message survives the trip to bytes and back |
| `TokenBucket.RunBound` | Godeps/_workspace/src/github.com/juju/ratelimit/ratelimit.go:156-221 | in every run the tokens usable by any tick are at most capacity plus quantum times the tick, and the bucket never holds more than its capacity |
| `TokenBucket.CallKeepsAccount` | Godeps/_workspace/src/github.com/juju/ratelimit/ratelimit.go:156-205 | one call keeps the account, and what it grants is covered by the tick it is ready |
| `TokenBucket.AnyWindow` | Godeps/_workspace/src/github.com/juju/ratelimit/ratelimit.go:156-172 | with immediate takes alone any window of ticks grants at most two capacities and the refills of the window |
| `TokenBucket.WindowBound` | Godeps/_workspace/src/github.com/juju/ratelimit/ratelimit.go:156-221 | the window bound from any settled state, and one capacity less when the bucket is not both full and stale |
| `TokenBucket.TakesLeast` | Godeps/_workspace/src/github.com/juju/ratelimit/ratelimit.go:156-172 | an immediate take gets the least of what is wanted and what is there after the refill, and nothing for less than one |
| `TokenBucket.RefusedIff` | Godeps/_workspace/src/github.com/juju/ratelimit/ratelimit.go:181-205 | a take on credit gets all or nothing, and nothing exactly when no tick within the allowed wait covers it |
| `TokenBucket.OneBucketIff` | Godeps/_workspace/src/github.com/juju/ratelimit/ratelimit.go:209-221 | every window grants at most one capacity and its refills exactly when it does not start from a full bucket whose tick lags behind |
| `TokenBucket.LazyIsEager` | Godeps/_workspace/src/github.com/juju/ratelimit/ratelimit.go:209-221 | one lazy refill over any number of ticks gives what as many capped single refills give |
| `TokenBucket.NeverBehindEager` | Godeps/_workspace/src/github.com/juju/ratelimit/ratelimit.go:181-221 | in every run the lazy bucket holds at least what an eager one charged the same counts holds |
| `TokenBucket.DebtWaitsForFirstTick` | Godeps/_workspace/src/github.com/juju/ratelimit/ratelimit.go:193-221 | the wait of a take on credit ends at the first tick at which the bucket itself has covered the debt exactly when the bucket was not both full and stale; otherwise it ends as many ticks late as the bucket lagged |
| `TokenBucket.StaleDebtServedLate` | Godeps/_workspace/src/github.com/juju/ratelimit/ratelimit.go:209-221 | a full idle bucket grants on credit for a later tick, has covered the debt at once, and serves the next caller first |
| `TokenBucket.CoveredFrom` | Godeps/_workspace/src/github.com/juju/ratelimit/ratelimit.go:209-221 | the refill covers a debt from exactly the rounded-up number of ticks after the last tick of the bucket on |
| `TokenBucket.DebtWaits` | Godeps/_workspace/src/github.com/juju/ratelimit/ratelimit.go:193-204 | a take on credit has a positive wait within what the caller allows that ends on a tick boundary |
| `TokenBucket.TicksAreFirst` | Godeps/_workspace/src/github.com/juju/ratelimit/ratelimit.go:193-196 | the rounded-up division is the first tick count that covers the debt |
| `TokenBucket.Bucket.constructor` | Godeps/_workspace/src/github.com/juju/ratelimit/ratelimit.go:81-98 | a new bucket is full |
| `TokenBucket.Bucket.Adjust` | Godeps/_workspace/src/github.com/juju/ratelimit/ratelimit.go:209-221 | refills as specified; a full bucket keeps its old tick |
| `TokenBucket.Bucket.TakeUpTo` | Godeps/_workspace/src/github.com/juju/ratelimit/ratelimit.go:156-172 | takes what is there up to the count and changes the state as specified |
| `TokenBucket.Bucket.TakeNow` | Godeps/_workspace/src/github.com/juju/ratelimit/ratelimit.go:181-205 | takes the count on credit unless the wait is too long, and returns the wait |
| `TokenBucket.NextQuantum` | Godeps/_workspace/src/github.com/juju/ratelimit/ratelimit.go:70-76 | the next quantum is larger, by a tenth or by one |
| `TokenBucket.NewBucketWithRate` | Godeps/_workspace/src/github.com/juju/ratelimit/ratelimit.go:53-65 | a bucket that is returned has a rate within a hundredth of the wanted one; for rates up to 10 to the 22 one is found exactly when the interval for one token fits 63 bits of nanoseconds |
| `TokenBucket.CloseEnough` | Godeps/_workspace/src/github.com/juju/ratelimit/ratelimit.go:53-65 | truncating the interval loses less than a hundredth once it has a hundred nanoseconds |
| `Quantile.InsertKeeps` | Godeps/_workspace/src/github.com/beorn7/perks/quantile/stream.go:216-240 | a sample put in its place keeps the summary sorted, its widths equal to the number fed, its last value the maximum, and every prefix width within the rank |
| `Quantile.AbsorbKeeps` | Godeps/_workspace/src/github.com/beorn7/perks/quantile/stream.go:263-286 | absorbing any sample but the last, for any compression function, keeps the same promises |
| `Quantile.CompressedKeeps` | Godeps/_workspace/src/github.com/beorn7/perks/quantile/stream.go:263-286 | a whole compression, whatever the bound, keeps the same promises |
| `Quantile.RankOf` | Godeps/_workspace/src/github.com/beorn7/perks/quantile/stream.go:210-242 | up to each sample the widths add up to no more than the number of values at or below it |
| `Quantile.Summary.constructor` | Godeps/_workspace/src/github.com/beorn7/perks/quantile/stream.go:107-110 | a new summary is empty |
| `Quantile.Summary.Merge` | Godeps/_workspace/src/github.com/beorn7/perks/quantile/stream.go:210-242 | merging a sorted batch keeps every promise, adds its widths and feeds exactly its values |
| `Quantile.Summary.PutInPlace` | Godeps/_workspace/src/github.com/beorn7/perks/quantile/stream.go:216-240 | one sample goes in after everything at or below it, with the delta the bound gives at its rank, and the promises are kept |
| `Quantile.Summary.Seek` | Godeps/_workspace/src/github.com/beorn7/perks/quantile/stream.go:219-236 | moves on to the place of the value and adds up the widths before it |
| `Quantile.Summary.Compress` | Godeps/_workspace/src/github.com/beorn7/perks/quantile/stream.go:263-286 | from the top down exactly the samples whose rank error stays within the bound are absorbed, and every promise is kept |
| `Quantile.Summary.Query` | Godeps/_workspace/src/github.com/beorn7/perks/quantile/stream.go:248-261 | the first sample whose successor could lie past the wanted rank, or the last; always a value that was fed |
| `Quantile.Stream.constructor` | Godeps/_workspace/src/github.com/beorn7/perks/quantile/stream.go:107-110 | a new stream holds nothing |
| `Quantile.Stream.Insert` | Godeps/_workspace/src/github.com/beorn7/perks/quantile/stream.go:113-123 | on every run the widths and the buffered values equal the number inserted and their values are those inserted |
| `Quantile.Stream.Flush` | Godeps/_workspace/src/github.com/beorn7/perks/quantile/stream.go:178-182 | the buffer moves into the summary whole |
| `Quantile.Stream.MaybeSort` | Godeps/_workspace/src/github.com/beorn7/perks/quantile/stream.go:184-189 | afterwards the buffer is sorted and holds the same values |
| `Quantile.Stream.Query` | Godeps/_workspace/src/github.com/beorn7/perks/quantile/stream.go:128-145 | the answer is an inserted value, or zero when there is none, and nothing inserted is lost |
| `Quantile.Stream.QueryBuffer` | Godeps/_workspace/src/github.com/beorn7/perks/quantile/stream.go:128-142 | before the first flush the answer is the value at the position in the sorted buffer |
| `Quantile.Stream.QuerySummary` | Godeps/_workspace/src/github.com/beorn7/perks/quantile/stream.go:143-145 | afterwards the buffer is flushed and the summary answers |
| `Quantile.Stream.Count` | Godeps/_workspace/src/github.com/beorn7/perks/quantile/stream.go:174-176 | the number of values inserted |
| `Quantile.Sort` | Godeps/_workspace/src/github.com/beorn7/perks/quantile/stream.go:184-189 | sorted by value and a permutation |
| `QuantileAnswers.StopsPast` | Godeps/_workspace/src/github.com/beorn7/perks/quantile/stream.go:248-261 | unless the answer is the last sample, the widths up to its successor and the delta there exceed the wanted rank |
| `QuantileAnswers.AnswersMonotone` | Godeps/_workspace/src/github.com/beorn7/perks/quantile/stream.go:248-261 | for one summary a larger quantile never has a smaller answer, when the bound falls by at most two from a rank to the next |
| `QuantileAnswers.KindsGentle` | Godeps/_workspace/src/github.com/beorn7/perks/quantile/stream.go:38-88 | the bounds of low, high and targeted streams do, a target when its error is within the rest |
| `QuantileAnswers.LeastGentle` | Godeps/_workspace/src/github.com/beorn7/perks/quantile/stream.go:69-88 | and so does the least of such bounds |
| `QuantileAnswers.SteepBound` | Godeps/_workspace/src/github.com/beorn7/perks/quantile/stream.go:248-261 | a bound that falls steeply can give the larger quantile the smaller answer |
| `QuantileAnswers.GrowsWithinBound` | Godeps/_workspace/src/github.com/beorn7/perks/quantile/stream.go:263-286 | compression lets no sample grow beyond the bound |
| `QuantileAnswers.PairCompressed` | Godeps/_workspace/src/github.com/beorn7/perks/quantile/stream.go:263-286 | two samples become one exactly when together they are within the bound |
| `Uuid.StampsDistinct` | Godeps/_workspace/src/github.com/pborman/uuid/time.go:51-67 | with fewer than 16384 bumps no pair of time and sequence is given out twice, however the clock moves |
| `Uuid.UuidsDistinct` | Godeps/_workspace/src/github.com/pborman/uuid/version1.go:17-41 | with 60-bit times and one node all UUIDs of a run are different |
| `Uuid.BoundIsSharp` | Godeps/_workspace/src/github.com/pborman/uuid/time.go:60-64 | at the 16384th bump a standing clock repeats its first pair |
| `Uuid.LaterStamp` | Godeps/_workspace/src/github.com/pborman/uuid/time.go:51-67 | a later pair has a stepped sequence or a larger time |
| `Uuid.PackReadsBack` | Godeps/_workspace/src/github.com/pborman/uuid/time.go:114-132 | time, sequence, version and variant are read back from the bytes (sections 4.1.4 and 4.1.5 of RFC 4122) |
| `Uuid.PackBytes` | Godeps/_workspace/src/github.com/pborman/uuid/version1.go:17-41 | each of the sixteen bytes, the last six being those of the node |
| `Uuid.Generator.constructor` | Godeps/_workspace/src/github.com/pborman/uuid/time.go:24-30 | a new generator has no sequence |
| `Uuid.Generator.SetClockSequence` | Godeps/_workspace/src/github.com/pborman/uuid/time.go:98-109 | the low fourteen bits under the variant; a change forgets the last time |
| `Uuid.Generator.GetTime` | Godeps/_workspace/src/github.com/pborman/uuid/time.go:51-67 | gives out the time, stepping the sequence when the clock has not moved on |
| `Uuid.Generator.NewUuid` | Godeps/_workspace/src/github.com/pborman/uuid/version1.go:17-41 | the sixteen bytes are the packed pair and node |
| `Metrics.FewerFirst` | Godeps/_workspace/src/github.com/prometheus/client_golang/model/metric.go:58-63 | the metric with fewer labels comes first |
| `Metrics.LesserFirst` | Godeps/_workspace/src/github.com/prometheus/client_golang/model/metric.go:76-88 | of two metrics that differ in the value of one label the lesser value comes first |
| `Metrics.AbsentFirst` | Godeps/_workspace/src/github.com/prometheus/client_golang/model/metric.go:76-88 | of two metrics with as many labels the one without the least differing label comes first |
| `Metrics.LessIff` | Godeps/_workspace/src/github.com/prometheus/client_golang/model/metric.go:76-88 | strings are compared at their first differing byte, a prefix being less |
| `Metrics.EarlierFirst` | Godeps/_workspace/src/github.com/prometheus/client_golang/model/sample.go:50-61 | of two samples of one metric the earlier comes first, and the order of metrics goes before time |
| `Metrics.PrefixedMeans` | Godeps/_workspace/src/github.com/prometheus/client_golang/model/metric.go:144-149 | a name that was prefixed so many times is so many copies of the prefix and the name |
| `Metrics.PrecedesTotal` | Godeps/_workspace/src/github.com/prometheus/client_golang/model/metric.go:57-91 | the order is irreflexive and of two different metrics exactly one comes first |
| `Metrics.PrecedesTrans` | Godeps/_workspace/src/github.com/prometheus/client_golang/model/metric.go:57-91 | the order is transitive |
| `Metrics.Before` | Godeps/_workspace/src/github.com/prometheus/client_golang/model/metric.go:57-91 | scanning the sorted, repeating names of both metrics decides by the least differing label |
| `Metrics.FoundFirst` | Godeps/_workspace/src/github.com/prometheus/client_golang/model/metric.go:76-88 | the first difference in the sorted list is the least there is |
| `Metrics.LessThan` | Godeps/_workspace/src/github.com/prometheus/client_golang/model/sample.go:50-61 | samples are compared by metric and then by time |
| `Metrics.SampleTies` | Godeps/_workspace/src/github.com/prometheus/client_golang/model/sample.go:50-61 | neither comes first exactly when metric and time are the same |
| `Metrics.SampleLessTrans` | Godeps/_workspace/src/github.com/prometheus/client_golang/model/sample.go:50-61 | the order of samples is transitive |
| `Metrics.MergeFromLabelSet` | Godeps/_workspace/src/github.com/prometheus/client_golang/model/metric.go:141-154 | with a prefix no label is lost and every merged label is carried under its own or a prefixed name; without one the merged labels win |
| `Metrics.FreeName` | Godeps/_workspace/src/github.com/prometheus/client_golang/model/metric.go:144-149 | prefixing ends at the first free name |

## Left out

- Positions: events and error messages carry no marks; the parser keeps its stack of marks only by height.
- YamlLoad.Load: the layouts are those `YamlLayout` describes; the code accepts a few more, as a colon in a block without any key before it.
- Characters below the scanner: skipping of blanks and comments, and the scanning of directives, tags, anchors and plain, single-quoted and block scalars, are one lexeme each, with a flag for malformed content.
- YamlScanner.Scanner.SaveSimpleKey: the panic on a required key where none is allowed is an outcome (`Panicked`), as `YamlPanic.RequiredKeyNotAllowed` reaches it; `YamlPanic.ContentRefusedIff` says when.
- YamlReader.Reader.DetermineEncoding: the two byte orders of UTF-16 are one encoding here, as the code reads both alike.
- Emitter output: analysis of scalars, anchors and tags is a parameter, and the text, the width of lines and the output buffer are modelled only for double-quoted scalars.
- YamlQuotedCode.Writer.WriteDoubleQuotedScalar: the output is one growing string; flushing the 128-byte buffer is not modelled.
- Plain, single-quoted, literal and folded scalars are not written or read back.
- YamlNodes.Builder.ParseCollection: nodes are values, so a collection is entered in the anchor table once it is complete instead of before its children; `YamlNodes.BindLate` shows the table is the same.
- YamlDecoder.DecodeIff: requires that no anchor is on an alias, which `YamlDecoder.DocumentAnchors` shows always holds.
- YamlReader.Reader.ReadToEnd: says nothing of input with a UTF-16 mark, which the code decodes into a buffer that in general no longer holds characters; one filling of it is modelled in `YamlUtf16`.
- YamlReader.Reader.UpdateBuffer: fails on input with a UTF-16 mark, for the same reason.
- YamlSpelling.StreamYields: in a single pair of a flow sequence the key is not left out, as the code then consumes the token behind it.
- Decoding into typed targets, custom unmarshalers, scalar resolution (a parameter) and keys that differ from themselves (not-a-number) are not modelled; an odd list of mapping children fails where the code would panic.
- Map fields, extensions, MessageSets, custom marshalers, default values and nil elements of repeated fields are not part of the protocol buffer model, nor are reflection and memory layouts; messages are values, so sharing between them is not captured.
- ProtoReader.Reader.DecodePacked: a length whose end would pass the top of the signed 64-bit range fails at the end of the input instead of with the overflow error.
- ProtoRoundTrip.MessageReads: assumes an encoding shorter than 2 to the 63 bytes, the most a slice can hold, and tags below 2 to the 29.
- Token bucket arithmetic is unbounded: overflow of 64-bit counts and durations is not modelled, except that an interval past 63 bits is refused as the code refuses it; `TokenBucket.NewBucketWithRate` computes with real numbers. Sleeping and locking are left out.
- Quantile values and errors are real numbers, so rounding and not-a-number are left out; upper bounds on the rank error and merging of whole summaries, which the code calls inaccurate, are not claimed.
- Quantile.Stream.Query: before the first flush the position read must lie in the buffer, as the code indexes without checking.
- The UUID node is fixed and explicit setting of the clock sequence is kept out of the runs.
- Queues of the Kubernetes controller, templates, process handling, HTTP and logging are not modelled: what remains of them is simple list handling.
