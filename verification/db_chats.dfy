/**
 * The chats table of `db/chats.rs`: chats are soft-deleted by an `archived`
 * text flag and listed newest first. Timestamps are the text SQLite's
 * `CURRENT_TIMESTAMP` produces, given here as a parameter `now`.
 */
module ChatsDb {
  import Strings
  import opened Wrappers
  import opened Types

  /** One row of the chats table, with the columns the statements read or write. */
  datatype ChatRow = ChatRow(
    id: string,
    model: string,
    apiKeyId: string,
    displayName: string,
    archived: string,
    creationDate: string,
    lastUpdated: string)

  /** The columns `get_chats` selects. */
  function AsChat(r: ChatRow): Chat
  {
    Chat(r.id, r.displayName, r.creationDate, r.lastUpdated)
  }

  /**
   * Text order under SQLite's default BINARY collation: byte order of the
   * UTF-8 encoding, which is code point order, with a prefix first.
   */
  predicate NotAfter(a: string, b: string)
    decreases |a|
  {
    a == [] || (b != [] && (a[0] < b[0] || (a[0] == b[0] && NotAfter(a[1..], b[1..]))))
  }

  /** Chats ordered by `last_updated DESC`. */
  predicate NewestFirst(chats: seq<Chat>)
  {
    forall i :: 0 <= i < |chats| - 1 ==> NotAfter(chats[i + 1].lastUpdated, chats[i].lastUpdated)
  }

  /** Puts `x` in front of the first chat that is not newer than it. */
  function InsertByRecency(x: Chat, s: seq<Chat>): (r: seq<Chat>)
    ensures multiset(r) == multiset(s) + multiset{x}
    ensures |r| == |s| + 1
    ensures r[0] == x || (s != [] && r[0] == s[0])
    ensures NewestFirst(s) ==> NewestFirst(r)
  {
    if s == [] then [x]
    else if NotAfter(s[0].lastUpdated, x.lastUpdated) then [x] + s
    else
      var rest := InsertByRecency(x, s[1..]);
      NotAfterTotal(s[0].lastUpdated, x.lastUpdated);
      assert s == [s[0]] + s[1..];
      var r := [s[0]] + rest;
      assert NewestFirst(s) ==> NewestFirst(r) by {
        if NewestFirst(s) {
          assert NewestFirst(s[1..]) by {
            forall i | 0 <= i < |s[1..]| - 1
              ensures NotAfter(s[1..][i + 1].lastUpdated, s[1..][i].lastUpdated)
            {
              assert s[1..][i + 1] == s[i + 2] && s[1..][i] == s[i + 1];
            }
          }
          forall i | 0 <= i < |r| - 1
            ensures NotAfter(r[i + 1].lastUpdated, r[i].lastUpdated)
          {
            if i > 0 {
              assert r[i + 1] == rest[i] && r[i] == rest[i - 1];
            } else if rest[0] != x {
              assert s[1] == s[1..][0];
            }
          }
        }
      }
      r
  }

  /** The chats sorted newest first; among equal timestamps the order is the engine's choice, and one is fixed here. */
  function SortByRecency(s: seq<Chat>): (r: seq<Chat>)
    ensures multiset(r) == multiset(s)
    ensures NewestFirst(r)
  {
    if s == [] then []
    else
      assert s == [s[0]] + s[1..];
      InsertByRecency(s[0], SortByRecency(s[1..]))
  }

  /** The row is unarchived and shows as the chat. */
  predicate Listed(rows: seq<ChatRow>, c: Chat)
  {
    exists i :: 0 <= i < |rows| && rows[i].archived == "false" && AsChat(rows[i]) == c
  }

  /** The rows with `archived = 'false'`, as chats, in table order. */
  function Unarchived(rows: seq<ChatRow>): (r: seq<Chat>)
    ensures forall c :: c in r <==> Listed(rows, c)
  {
    if rows == [] then []
    else
      var rest := Unarchived(rows[1..]);
      var r := (if rows[0].archived == "false" then [AsChat(rows[0])] else []) + rest;
      assert forall c :: c in r <==> Listed(rows, c) by {
        forall c
          ensures c in r <==> Listed(rows, c)
        {
          if c in rest {
            var i :| 0 <= i < |rows[1..]| && rows[1..][i].archived == "false" && AsChat(rows[1..][i]) == c;
            assert rows[i + 1] == rows[1..][i];
          }
          if Listed(rows, c) {
            var i :| 0 <= i < |rows| && rows[i].archived == "false" && AsChat(rows[i]) == c;
            if i > 0 {
              assert rows[1..][i - 1] == rows[i];
            }
          }
        }
      }
      r
  }

  /** A row added at the end is listed last, if it is not archived. */
  lemma {:induction false} UnarchivedSnoc(rows: seq<ChatRow>, row: ChatRow)
    ensures Unarchived(rows + [row])
            == Unarchived(rows) + (if row.archived == "false" then [AsChat(row)] else [])
    decreases |rows|
  {
    if rows == [] {
      assert [row][1..] == [];
    } else {
      var h := if rows[0].archived == "false" then [AsChat(rows[0])] else [];
      var t := if row.archived == "false" then [AsChat(row)] else [];
      var u := Unarchived(rows[1..]);
      assert Unarchived(rows + [row]) == h + Unarchived(rows[1..] + [row]) by {
        assert (rows + [row])[0] == rows[0];
        assert (rows + [row])[1..] == rows[1..] + [row];
      }
      UnarchivedSnoc(rows[1..], row);
      Strings.Assoc(h, u, t);
    }
  }

  /** The display name of the first row with the id: what `fetch_optional` returns. */
  function DisplayNameOf(rows: seq<ChatRow>, id: string): (r: Option<string>)
    ensures r.None? <==> forall i :: 0 <= i < |rows| ==> rows[i].id != id
    ensures r.Some? ==> exists i :: 0 <= i < |rows| && rows[i].id == id && rows[i].displayName == r.value
  {
    if rows == [] then None
    else if rows[0].id == id then Some(rows[0].displayName)
    else
      var rest := DisplayNameOf(rows[1..], id);
      assert forall i :: 1 <= i < |rows| ==> rows[i] == rows[1..][i - 1];
      rest
  }

  /** Every row with the id gets the new display name; nothing else changes. */
  function Renamed(rows: seq<ChatRow>, id: string, name: string): (r: seq<ChatRow>)
    ensures |r| == |rows|
    ensures forall i :: 0 <= i < |rows| ==> r[i] == if rows[i].id == id then rows[i].(displayName := name) else rows[i]
  {
    seq(|rows|, i requires 0 <= i < |rows| => if rows[i].id == id then rows[i].(displayName := name) else rows[i])
  }

  /** Every row with the id gets `archived = 'true'`; nothing else changes. */
  function Archived(rows: seq<ChatRow>, id: string): (r: seq<ChatRow>)
    ensures |r| == |rows|
    ensures forall i :: 0 <= i < |rows| ==> r[i] == if rows[i].id == id then rows[i].(archived := "true") else rows[i]
  {
    seq(|rows|, i requires 0 <= i < |rows| => if rows[i].id == id then rows[i].(archived := "true") else rows[i])
  }

  /** Every row with the id gets `last_updated = now`; nothing else changes. */
  function Touched(rows: seq<ChatRow>, id: string, now: string): (r: seq<ChatRow>)
    ensures |r| == |rows|
    ensures forall i :: 0 <= i < |rows| ==> r[i] == if rows[i].id == id then rows[i].(lastUpdated := now) else rows[i]
  {
    seq(|rows|, i requires 0 <= i < |rows| => if rows[i].id == id then rows[i].(lastUpdated := now) else rows[i])
  }

  /** The rows without the id, in their order. */
  function Without(rows: seq<ChatRow>, id: string): (r: seq<ChatRow>)
    ensures forall x :: x in r <==> x in rows && x.id != id
  {
    if rows == [] then []
    else (if rows[0].id == id then [] else [rows[0]]) + Without(rows[1..], id)
  }

  /**
   * The row `insert_chat_display_name` writes. The statement sets no creation
   * date, so `now` stands for the schema's column default; `last_updated` is
   * the statement's CURRENT_TIMESTAMP.
   */
  function NewChat(id: string, model: string, displayName: string, now: string): ChatRow
  {
    ChatRow(id, model, "NA", displayName, "false", now, now)
  }

  class ChatsTable {
    var rows: seq<ChatRow>

    constructor (initial: seq<ChatRow>)
      ensures rows == initial
    {
      rows := initial;
    }

    /** `get_chats`: the unarchived chats, newest first. */
    function GetChats(fetchError: Option<string>): (r: Result<seq<Chat>, string>)
      reads this
      ensures r.Err? <==> fetchError.Some?
      ensures r.Err? ==> r.error == fetchError.value
      ensures r.Ok? ==> NewestFirst(r.value)
      ensures r.Ok? ==> forall c :: c in r.value <==> Listed(rows, c)
      ensures r.Ok? ==> multiset(r.value) == multiset(Unarchived(rows))
    {
      if fetchError.Some? then Err(fetchError.value)
      else
        var u := Unarchived(rows);
        var r := SortByRecency(u);
        assert forall c :: c in r <==> c in u by {
          forall c
            ensures c in r <==> c in u
          {
            assert c in r <==> c in multiset(r);
            assert c in u <==> c in multiset(u);
          }
        }
        Ok(r)
    }

    /** `get_chat_display_name`. */
    function GetChatDisplayName(id: string, fetchError: Option<string>): (r: Result<Option<string>, string>)
      reads this
      ensures r.Err? <==> fetchError.Some?
      ensures r.Err? ==> r.error == fetchError.value
      ensures r.Ok? ==> r.value == DisplayNameOf(rows, id)
    {
      if fetchError.Some? then Err(fetchError.value) else Ok(DisplayNameOf(rows, id))
    }

    /** `insert_chat_display_name`: a new unarchived chat stamped `now`, with `api_key_id` `NA`. */
    method InsertChatDisplayName(id: string, model: string, displayName: string, now: string, insertError: Option<string>)
      returns (r: Result<(), string>)
      modifies this
      ensures insertError.Some? ==> r == Err(insertError.value) && rows == old(rows)
      ensures insertError.None? ==> r == Ok(()) && rows == old(rows) + [NewChat(id, model, displayName, now)]
    {
      if insertError.Some? {
        return Err(insertError.value);
      }
      rows := rows + [NewChat(id, model, displayName, now)];
      r := Ok(());
    }

    /** `rename_chat`, and the display-name UPDATE of `get_message`: succeeds even when no row matches. */
    method RenameChat(id: string, name: string, updateError: Option<string>) returns (r: Result<(), string>)
      modifies this
      ensures updateError.Some? ==> r == Err(updateError.value) && rows == old(rows)
      ensures updateError.None? ==> r == Ok(()) && rows == Renamed(old(rows), id, name)
    {
      if updateError.Some? {
        return Err(updateError.value);
      }
      rows := Renamed(rows, id, name);
      r := Ok(());
    }

    /** `archive_chat`. */
    method ArchiveChat(id: string, updateError: Option<string>) returns (r: Result<(), string>)
      modifies this
      ensures updateError.Some? ==> r == Err(updateError.value) && rows == old(rows)
      ensures updateError.None? ==> r == Ok(()) && rows == Archived(old(rows), id)
    {
      if updateError.Some? {
        return Err(updateError.value);
      }
      rows := Archived(rows, id);
      r := Ok(());
    }

    /** The `last_updated` UPDATE of `get_message`. */
    method TouchChat(id: string, now: string, updateError: Option<string>) returns (r: Result<(), string>)
      modifies this
      ensures updateError.Some? ==> r == Err(updateError.value) && rows == old(rows)
      ensures updateError.None? ==> r == Ok(()) && rows == Touched(old(rows), id, now)
    {
      if updateError.Some? {
        return Err(updateError.value);
      }
      rows := Touched(rows, id, now);
      r := Ok(());
    }

    /** `delete_chat`: succeeds even when no row matches. */
    method DeleteChat(id: string, deleteError: Option<string>) returns (r: Result<(), string>)
      modifies this
      ensures deleteError.Some? ==> r == Err(deleteError.value) && rows == old(rows)
      ensures deleteError.None? ==> r == Ok(()) && rows == Without(old(rows), id)
    {
      if deleteError.Some? {
        return Err(deleteError.value);
      }
      rows := Without(rows, id);
      r := Ok(());
    }
  }

  // ---------------------------------------------------------------------
  // Properties

  /** Any two texts are ordered one way or the other. */
  lemma {:induction false} NotAfterTotal(a: string, b: string)
    ensures NotAfter(a, b) || NotAfter(b, a)
    decreases |a|
  {
    if a != [] && b != [] && a[0] == b[0] {
      NotAfterTotal(a[1..], b[1..]);
    }
  }

  /** An archived chat is no longer listed, but its display name is still found. */
  lemma ArchiveHidesButKeeps(rows: seq<ChatRow>, id: string)
    ensures forall c :: c in Unarchived(Archived(rows, id)) ==> c.id != id
    ensures DisplayNameOf(Archived(rows, id), id) == DisplayNameOf(rows, id)
  {
    ArchivedNames(rows, id);
  }

  lemma {:induction false} ArchivedNames(rows: seq<ChatRow>, id: string)
    ensures DisplayNameOf(Archived(rows, id), id) == DisplayNameOf(rows, id)
    decreases |rows|
  {
    if rows != [] {
      assert Archived(rows, id)[1..] == Archived(rows[1..], id);
      ArchivedNames(rows[1..], id);
    }
  }

  /** A rename is seen by the next lookup of that chat; the other chats keep their names. */
  lemma {:induction false} RenameIsSeen(rows: seq<ChatRow>, id: string, name: string, other: string)
    requires other != id
    ensures DisplayNameOf(Renamed(rows, id, name), id) == if DisplayNameOf(rows, id).Some? then Some(name) else None
    ensures DisplayNameOf(Renamed(rows, id, name), other) == DisplayNameOf(rows, other)
    decreases |rows|
  {
    if rows != [] {
      assert Renamed(rows, id, name)[1..] == Renamed(rows[1..], id, name);
      RenameIsSeen(rows[1..], id, name, other);
    }
  }

  /** A deleted chat is gone; the other chats are untouched. */
  lemma {:induction false} DeleteRemovesOnlyIt(rows: seq<ChatRow>, id: string, other: string)
    requires other != id
    ensures DisplayNameOf(Without(rows, id), id).None?
    ensures DisplayNameOf(Without(rows, id), other) == DisplayNameOf(rows, other)
    decreases |rows|
  {
    if rows != [] {
      DeleteRemovesOnlyIt(rows[1..], id, other);
      var rest := Without(rows[1..], id);
      if rows[0].id != id {
        assert ([rows[0]] + rest)[1..] == rest;
      } else {
        assert [] + rest == rest;
      }
    }
  }

  /** A new chat is found by its id when no earlier row had that id, and it is listed. */
  lemma NewChatFoundAndListed(rows: seq<ChatRow>, id: string, model: string, name: string, now: string)
    requires DisplayNameOf(rows, id).None?
    ensures DisplayNameOf(rows + [NewChat(id, model, name, now)], id) == Some(name)
    ensures AsChat(NewChat(id, model, name, now)) in Unarchived(rows + [NewChat(id, model, name, now)])
  {
    var r := rows + [NewChat(id, model, name, now)];
    assert r[|rows|].archived == "false";
  }
}
