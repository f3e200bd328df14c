/** The records of the chat client: messages, sessions, saved prompts and model
    endpoints. Optional fields are `Option`s; `timestamp`-like fields are the
    millisecond numbers that `Date.now()` returns. */
module Types {
  import opened Wrappers

  datatype Role = User | Assistant | System

  datatype MessageStatus = Sending | Streaming | Success | Error

  datatype MessageMetadata = MessageMetadata(pageUrl: Option<string>, selectedText: Option<string>)

  datatype ChatMessage = ChatMessage(
    id: string,
    role: Role,
    content: string,
    timestamp: int,
    status: Option<MessageStatus>,
    metadata: Option<MessageMetadata>)

  datatype ChatSession = ChatSession(
    id: string,
    title: string,
    messages: seq<ChatMessage>,
    createdAt: int,
    updatedAt: int)

  datatype PromptCategory = Development | Testing | Design | General | Custom

  datatype PromptVariable = PromptVariable(
    name: string,
    description: string,
    defaultValue: Option<string>,
    required: bool)

  datatype Prompt = Prompt(
    id: string,
    title: string,
    content: string,
    category: PromptCategory,
    tags: seq<string>,
    variables: Option<seq<PromptVariable>>,
    createTime: int,
    updateTime: int,
    useCount: int,
    isFavorite: bool,
    isActive: bool)

  /** The field `sortPrompts` orders by. */
  datatype SortBy = UseCount | CreateTime | UpdateTime

  datatype ModelConfig = ModelConfig(
    id: string,
    baseUrl: string,
    apiKey: string,
    model: string,
    isActive: bool)

  /** The id of each kind of record, the key that `find`, `findIndex` and `filter`
      compare against. */
  function SessionKey(s: ChatSession): string { s.id }
  function MessageKey(m: ChatMessage): string { m.id }
  function PromptKey(p: Prompt): string { p.id }
  function ModelKey(m: ModelConfig): string { m.id }
}
