/**
 * The messages and message_blocks tables of `db/messages.rs`. Neither
 * query has an ORDER BY; rows come back in the order they were inserted.
 */
module MessagesDb {
  import opened Wrappers
  import opened Types

  /** One row of the messages table. */
  datatype MessageRow = MessageRow(id: string, role: string, content: string, chatId: string, modelName: string)

  /** One row of the message_blocks table: the message it belongs to and the block as it reads back. */
  datatype BlockRow = BlockRow(messageId: string, block: MessageBlock)

  /** `from_row`: the selected columns, and no blocks yet. */
  function FromRow(r: MessageRow): Message
  {
    Message(r.id, r.role, r.content, r.modelName, None)
  }

  /** A message of the chat is stored in some row. */
  predicate InChat(rows: seq<MessageRow>, chatId: string, m: Message)
  {
    exists i :: 0 <= i < |rows| && rows[i].chatId == chatId && FromRow(rows[i]) == m
  }

  /** `SELECT … FROM messages WHERE chat_id = $1`, in insertion order. */
  function ChatMessages(rows: seq<MessageRow>, chatId: string): (r: seq<Message>)
    ensures |r| <= |rows|
    ensures forall k :: 0 <= k < |r| ==> r[k].blocks.None?
  {
    if rows == [] then []
    else (if rows[0].chatId == chatId then [FromRow(rows[0])] else []) + ChatMessages(rows[1..], chatId)
  }

  /** `SELECT … FROM message_blocks WHERE message_id = $1`, in insertion order. */
  function BlocksOf(rows: seq<BlockRow>, messageId: string): seq<MessageBlock>
  {
    if rows == [] then []
    else (if rows[0].messageId == messageId then [rows[0].block] else []) + BlocksOf(rows[1..], messageId)
  }

  /** A block as it reads back: the id the table gave it, and `copied` stored as `0`. */
  function Stored(b: MessageBlock, id: int): MessageBlock
  {
    b.(id := Some(id), copied := Some(false))
  }

  /** The blocks whose INSERT succeeds, in order; `failed` holds the positions whose INSERT fails. */
  function Kept(blocks: seq<MessageBlock>, failed: set<int>): (r: seq<MessageBlock>)
    ensures |r| <= |blocks|
    decreases |blocks|
  {
    if blocks == [] then []
    else
      var n := |blocks| - 1;
      Kept(blocks[..n], failed) + (if n in failed then [] else [blocks[n]])
  }

  /** The rows `insert_message_blocks` adds, numbered from `nextId`. */
  function InsertedBlocks(messageId: string, blocks: seq<MessageBlock>, failed: set<int>, nextId: int): (r: seq<BlockRow>)
    decreases |blocks|
  {
    if blocks == [] then []
    else
      var n := |blocks| - 1;
      var before := InsertedBlocks(messageId, blocks[..n], failed, nextId);
      before + (if n in failed then [] else [BlockRow(messageId, Stored(blocks[n], nextId + |before|))])
  }

  /** A message as `load_chat` returns it: with its blocks, unless fetching them failed. */
  function Loaded(m: Message, rows: seq<BlockRow>, fetchFails: set<string>): Message
  {
    if m.id in fetchFails then m else m.(blocks := Some(BlocksOf(rows, m.id)))
  }

  class MessagesTable {
    var messages: seq<MessageRow>
    var blocks: seq<BlockRow>
    /** The id the table gives the next block row. */
    var nextBlockId: int

    constructor (initialMessages: seq<MessageRow>, initialBlocks: seq<BlockRow>, nextId: int)
      ensures messages == initialMessages && blocks == initialBlocks && nextBlockId == nextId
    {
      messages, blocks, nextBlockId := initialMessages, initialBlocks, nextId;
    }

    /** `insert_message`: one new row, unless the INSERT fails, which is ignored. */
    method InsertMessage(id: string, role: string, content: string, chatId: string, modelName: string, insertOk: bool)
      modifies this
      ensures messages == old(messages) + (if insertOk then [MessageRow(id, role, content, chatId, modelName)] else [])
      ensures blocks == old(blocks) && nextBlockId == old(nextBlockId)
    {
      if insertOk {
        messages := messages + [MessageRow(id, role, content, chatId, modelName)];
      }
    }

    /** `insert_message_blocks`: one row per block in order; a failed INSERT is skipped and the loop goes on. */
    method InsertMessageBlocks(messageId: string, newBlocks: seq<MessageBlock>, failed: set<int>)
      modifies this
      ensures blocks == old(blocks) + InsertedBlocks(messageId, newBlocks, failed, old(nextBlockId))
      ensures nextBlockId == old(nextBlockId) + |InsertedBlocks(messageId, newBlocks, failed, old(nextBlockId))|
      ensures messages == old(messages)
    {
      var i := 0;
      while i < |newBlocks|
        invariant 0 <= i <= |newBlocks|
        invariant blocks == old(blocks) + InsertedBlocks(messageId, newBlocks[..i], failed, old(nextBlockId))
        invariant nextBlockId == old(nextBlockId) + |InsertedBlocks(messageId, newBlocks[..i], failed, old(nextBlockId))|
        invariant messages == old(messages)
      {
        assert newBlocks[..i + 1][..i] == newBlocks[..i];
        if i !in failed {
          blocks := blocks + [BlockRow(messageId, Stored(newBlocks[i], nextBlockId))];
          nextBlockId := nextBlockId + 1;
        }
        i := i + 1;
      }
      assert newBlocks[..i] == newBlocks;
    }

    /** `get_messages`: the chat's messages without blocks; a failed fetch reads `Database error: …`. */
    function GetMessages(chatId: string, fetchError: Option<string>): (r: Result<MessageHistory, string>)
      reads this
      ensures r.Err? <==> fetchError.Some?
      ensures r.Err? ==> r.error == "Database error: " + fetchError.value
      ensures r.Ok? ==> r.value == ChatMessages(messages, chatId)
      ensures r.Ok? ==> forall m :: m in r.value <==> InChat(messages, chatId, m)
      ensures r.Ok? ==> forall k :: 0 <= k < |r.value| ==> r.value[k].blocks.None?
    {
      if fetchError.Some? then Err("Database error: " + fetchError.value)
      else
        ChatMessagesMembers(messages, chatId);
        Ok(ChatMessages(messages, chatId))
    }

    /**
     * `load_chat`: fills in each message's blocks; a message whose block
     * fetch fails keeps `None`, and only a failed message fetch is an error.
     */
    method LoadChat(chatId: string, fetchError: Option<string>, blockFetchFails: set<string>)
      returns (r: Result<seq<Message>, string>)
      ensures r.Err? <==> fetchError.Some?
      ensures r.Err? ==> r.error == fetchError.value
      ensures r.Ok? ==> |r.value| == |ChatMessages(messages, chatId)|
      ensures r.Ok? ==> forall k :: 0 <= k < |r.value| ==>
                r.value[k] == Loaded(ChatMessages(messages, chatId)[k], blocks, blockFetchFails)
    {
      if fetchError.Some? {
        return Err(fetchError.value);
      }
      var fetched := ChatMessages(messages, chatId);
      var ms := fetched;
      var i := 0;
      while i < |ms|
        invariant 0 <= i <= |ms| == |fetched|
        invariant forall k :: 0 <= k < i ==> ms[k] == Loaded(fetched[k], blocks, blockFetchFails)
        invariant forall k :: i <= k < |ms| ==> ms[k] == fetched[k]
      {
        if ms[i].id !in blockFetchFails {
          ms := ms[i := ms[i].(blocks := Some(BlocksOf(blocks, ms[i].id)))];
        }
        i := i + 1;
      }
      r := Ok(ms);
    }
  }

  // ---------------------------------------------------------------------
  // Properties

  /** The fetched messages are exactly those stored for the chat. */
  lemma {:induction false} ChatMessagesMembers(rows: seq<MessageRow>, chatId: string)
    ensures forall m :: m in ChatMessages(rows, chatId) <==> InChat(rows, chatId, m)
    decreases |rows|
  {
    if rows != [] {
      ChatMessagesMembers(rows[1..], chatId);
      var r := ChatMessages(rows, chatId);
      var rest := ChatMessages(rows[1..], chatId);
      forall m
        ensures m in r <==> InChat(rows, chatId, m)
      {
        if InChat(rows[1..], chatId, m) {
          var i :| 0 <= i < |rows[1..]| && rows[1..][i].chatId == chatId && FromRow(rows[1..][i]) == m;
          assert rows[i + 1] == rows[1..][i];
        }
        if InChat(rows, chatId, m) {
          var i :| 0 <= i < |rows| && rows[i].chatId == chatId && FromRow(rows[i]) == m;
          if i > 0 {
            assert rows[1..][i - 1] == rows[i];
          }
        }
      }
    }
  }

  /** A message inserted into a chat comes last in that chat's history; other chats are unaffected. */
  lemma {:induction false} AppendedMessageComesLast(rows: seq<MessageRow>, row: MessageRow, chatId: string)
    ensures ChatMessages(rows + [row], chatId)
            == ChatMessages(rows, chatId) + (if row.chatId == chatId then [FromRow(row)] else [])
    decreases |rows|
  {
    if rows == [] {
      assert [row][1..] == [];
    } else {
      assert (rows + [row])[1..] == rows[1..] + [row];
      AppendedMessageComesLast(rows[1..], row, chatId);
    }
  }

  lemma {:induction false} BlocksOfAppend(a: seq<BlockRow>, b: seq<BlockRow>, messageId: string)
    ensures BlocksOf(a + b, messageId) == BlocksOf(a, messageId) + BlocksOf(b, messageId)
    decreases |a|
  {
    if a == [] {
      assert [] + b == b;
    } else {
      var head: seq<MessageBlock> := if a[0].messageId == messageId then [a[0].block] else [];
      assert (a + b)[0] == a[0] && (a + b)[1..] == a[1..] + b;
      BlocksOfAppend(a[1..], b, messageId);
      assert BlocksOf(a + b, messageId) == head + (BlocksOf(a[1..], messageId) + BlocksOf(b, messageId));
      assert head + (BlocksOf(a[1..], messageId) + BlocksOf(b, messageId)) == head + BlocksOf(a[1..], messageId) + BlocksOf(b, messageId);
    }
  }

  /** The rows added are the blocks whose INSERT succeeded, in order, with consecutive ids. */
  lemma {:induction false} InsertedBlocksShape(messageId: string, blocks: seq<MessageBlock>, failed: set<int>, nextId: int)
    ensures |InsertedBlocks(messageId, blocks, failed, nextId)| == |Kept(blocks, failed)|
    ensures forall k :: 0 <= k < |Kept(blocks, failed)| ==>
              InsertedBlocks(messageId, blocks, failed, nextId)[k] == BlockRow(messageId, Stored(Kept(blocks, failed)[k], nextId + k))
    decreases |blocks|
  {
    if blocks != [] {
      var n := |blocks| - 1;
      InsertedBlocksShape(messageId, blocks[..n], failed, nextId);
      var before := InsertedBlocks(messageId, blocks[..n], failed, nextId);
      var kept := Kept(blocks[..n], failed);
      assert InsertedBlocks(messageId, blocks, failed, nextId)
             == before + (if n in failed then [] else [BlockRow(messageId, Stored(blocks[n], nextId + |before|))]);
      assert Kept(blocks, failed) == kept + (if n in failed then [] else [blocks[n]]);
      forall k | 0 <= k < |Kept(blocks, failed)|
        ensures InsertedBlocks(messageId, blocks, failed, nextId)[k] == BlockRow(messageId, Stored(Kept(blocks, failed)[k], nextId + k))
      {
        if k < |kept| {
          assert Kept(blocks, failed)[k] == kept[k];
          assert InsertedBlocks(messageId, blocks, failed, nextId)[k] == before[k];
        }
      }
    }
  }

  /** With no failed INSERT every block is kept. */
  lemma {:induction false} NothingFailedKeepsAll(blocks: seq<MessageBlock>, failed: set<int>)
    requires forall k :: 0 <= k < |blocks| ==> k !in failed
    ensures Kept(blocks, failed) == blocks
    decreases |blocks|
  {
    if blocks != [] {
      var n := |blocks| - 1;
      NothingFailedKeepsAll(blocks[..n], failed);
      assert blocks[..n] + [blocks[n]] == blocks;
    }
  }

  lemma {:induction false} AllRowsOfMessage(messageId: string, blocks: seq<MessageBlock>, failed: set<int>, nextId: int)
    ensures BlocksOf(InsertedBlocks(messageId, blocks, failed, nextId), messageId)
            == seq(|Kept(blocks, failed)|, k requires 0 <= k < |Kept(blocks, failed)| => Stored(Kept(blocks, failed)[k], nextId + k))
    decreases |blocks|
  {
    InsertedBlocksShape(messageId, blocks, failed, nextId);
    RowsOfOneMessage(InsertedBlocks(messageId, blocks, failed, nextId), messageId);
  }

  lemma {:induction false} RowsOfOneMessage(rows: seq<BlockRow>, messageId: string)
    requires forall k :: 0 <= k < |rows| ==> rows[k].messageId == messageId
    ensures BlocksOf(rows, messageId) == seq(|rows|, k requires 0 <= k < |rows| => rows[k].block)
    decreases |rows|
  {
    if rows != [] {
      RowsOfOneMessage(rows[1..], messageId);
    }
  }

  /**
   * Round trip: the blocks stored for a new message and then loaded are the
   * blocks whose INSERT succeeded, in order, each with its id and `copied`
   * false.
   */
  lemma BlocksRoundTrip(prior: seq<BlockRow>, messageId: string, blocks: seq<MessageBlock>, failed: set<int>, nextId: int)
    requires BlocksOf(prior, messageId) == []
    ensures BlocksOf(prior + InsertedBlocks(messageId, blocks, failed, nextId), messageId)
            == seq(|Kept(blocks, failed)|, k requires 0 <= k < |Kept(blocks, failed)| => Stored(Kept(blocks, failed)[k], nextId + k))
  {
    BlocksOfAppend(prior, InsertedBlocks(messageId, blocks, failed, nextId), messageId);
    AllRowsOfMessage(messageId, blocks, failed, nextId);
  }
}
