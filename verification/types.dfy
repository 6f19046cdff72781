/**
 * The records the chat client passes around: messages, their rendered
 * blocks, models and chats, and the `Display` text of a block.
 */
module Types {
  import opened Wrappers
  import opened Strings

  /** Rust's `u32`. */
  type U32 = x: int | 0 <= x < 0x1_0000_0000

  datatype MessageBlock = MessageBlock(
    id: Option<int>,
    blockType: string,
    language: Option<string>,
    rawContent: string,
    renderedContent: string,
    copied: Option<bool>)

  datatype Message = Message(
    id: string,
    role: string,
    content: string,
    modelName: string,
    blocks: Option<seq<MessageBlock>>)

  /** `MessageHistory` is a tuple struct around the list of messages. */
  type MessageHistory = seq<Message>

  datatype Model = Model(
    providerName: string,
    modelName: string,
    modelDisplayName: string,
    show: bool,
    maxTokens: U32,
    contextWindow: U32)

  datatype Chat = Chat(
    id: string,
    displayName: string,
    creationDate: string,
    lastUpdated: string)

  /** `ProviderData` (declared in providers.rs): one row of the providers table. */
  datatype ProviderData = ProviderData(
    providerName: string,
    apiKey: string,
    displayName: string,
    apiKeyValid: bool)

  /** `Display for MessageBlock`: a JSON-looking line with the fields spliced in verbatim. */
  function BlockDisplay(b: MessageBlock): string
  {
    match b.language
    case Some(lang) =>
      "{\"type\": \"" + b.blockType + "\", \"language\": \"" + lang
      + "\", \"content\": \"" + b.renderedContent + "\"}"
    case None =>
      "{\"type\": \"" + b.blockType + "\", \"content\": \"" + b.renderedContent + "\"}"
  }

  /**
   * The display starts with the block's type, ends with its rendered content,
   * and names the language exactly when the block has one.
   */
  lemma BlockDisplayShape(b: MessageBlock)
    ensures StartsWith(BlockDisplay(b), "{\"type\": \"" + b.blockType + "\", ")
    ensures EndsWith(BlockDisplay(b), "\"content\": \"" + b.renderedContent + "\"}")
    ensures b.language.Some? ==>
              StartsWith(BlockDisplay(b), "{\"type\": \"" + b.blockType + "\", " + ("\"language\": \"" + b.language.value + "\", "))
    ensures b.language.None? ==>
              BlockDisplay(b) == "{\"type\": \"" + b.blockType + "\", " + "\"content\": \"" + b.renderedContent + "\"}"
  {
    var head := "{\"type\": \"" + b.blockType + "\", ";
    var tail := "\"content\": \"" + b.renderedContent + "\"}";
    if b.language.Some? {
      DisplayWithLanguage(b);
      ConcatEnds(head, "\"language\": \"" + b.language.value + "\", ", tail);
    } else {
      DisplayWithoutLanguage(b);
      ConcatEnds(head, [], tail);
      assert head + [] == head;
    }
  }

  lemma DisplayWithLanguage(b: MessageBlock)
    requires b.language.Some?
    ensures BlockDisplay(b)
            == "{\"type\": \"" + b.blockType + "\", " + ("\"language\": \"" + b.language.value + "\", ")
               + ("\"content\": \"" + b.renderedContent + "\"}")
  {
  }

  lemma DisplayWithoutLanguage(b: MessageBlock)
    requires b.language.None?
    ensures BlockDisplay(b) == "{\"type\": \"" + b.blockType + "\", " + [] + ("\"content\": \"" + b.renderedContent + "\"}")
  {
  }

  /** The display reads only the type, the language and the rendered content: never the id, raw content or copied flag. */
  lemma DisplayIgnoresStoredFields(b: MessageBlock, id: Option<int>, raw: string, copied: Option<bool>)
    ensures BlockDisplay(b.(id := id, rawContent := raw, copied := copied)) == BlockDisplay(b)
  {
  }

  /**
   * Nothing is escaped: a type text that contains a quote can pass for a
   * language field, so two different blocks can display identically.
   */
  lemma DisplayIsNotInjective()
    ensures var tagged := MessageBlock(None, "code", Some("x"), "", "c", None);
            var forged := MessageBlock(None, "code\", \"language\": \"x", None, "", "c", None);
            tagged != forged && BlockDisplay(tagged) == BlockDisplay(forged)
  {
    var tagged := MessageBlock(None, "code", Some("x"), "", "c", None);
    var forged := MessageBlock(None, "code\", \"language\": \"x", None, "", "c", None);
    assert tagged.language != forged.language;
  }
}
