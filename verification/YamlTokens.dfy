/** The scanner's tokens and the parser's control states. */
module YamlTokens {
  import opened Wrappers
  import opened YamlEvents

  datatype Mark = Mark(index: nat, line: nat, column: nat)

  datatype TokenKind =
    | StreamStartToken | StreamEndToken | VersionDirectiveToken | TagDirectiveToken
    | DocumentStartToken | DocumentEndToken
    | BlockSequenceStartToken | BlockMappingStartToken | BlockEndToken
    | FlowSequenceStartToken | FlowSequenceEndToken | FlowMappingStartToken | FlowMappingEndToken
    | BlockEntryToken | FlowEntryToken | KeyToken | ValueToken
    | AliasToken | AnchorToken | TagToken | ScalarToken

  /** `value` is the scalar text, the anchor or alias name, or the tag or directive handle. */
  datatype Token = Token(kind: TokenKind, start: Mark, value: Bytes, suffix: Bytes, prefix: Bytes,
                         major: int, minor: int, style: ScalarStyle)

  datatype State =
    | StreamStartState | ImplicitDocumentStartState | DocumentStartState | DocumentContentState | DocumentEndState
    | BlockNodeState
    | BlockSequenceFirstEntryState | BlockSequenceEntryState | IndentlessSequenceEntryState
    | BlockMappingFirstKeyState | BlockMappingKeyState | BlockMappingValueState
    | FlowSequenceFirstEntryState | FlowSequenceEntryState
    | FlowSequenceEntryMappingKeyState | FlowSequenceEntryMappingValueState | FlowSequenceEntryMappingEndState
    | FlowMappingFirstKeyState | FlowMappingKeyState | FlowMappingValueState | FlowMappingEmptyValueState
    | EndState
}
