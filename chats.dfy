/** convex/chats.ts: chat histories, loaded for the UI and saved without repeating messages. */
module Chats {
  import opened Schema
  import opened Db

  /** The one `{ type: 'text', text }` part a loaded message carries. */
  datatype TextPart = TextPart(text: string)

  /** The UI message shape `loadMessages` produces. */
  datatype UIMessage = UIMessage(id: string, role: Role, parts: seq<TextPart>, createdAt: int)

  /** The messages mapped one to one, in order, each to a single text part. */
  function ToUIMessages(msgs: seq<StoredMessage>): (r: seq<UIMessage>)
    ensures |r| == |msgs|
    ensures forall i :: 0 <= i < |msgs| ==>
              r[i].id == msgs[i].id && r[i].role == msgs[i].role && r[i].createdAt == msgs[i].createdAt &&
              r[i].parts == [TextPart(msgs[i].content)]
  {
    if msgs == [] then []
    else
      var m := msgs[0];
      [UIMessage(m.id, m.role, [TextPart(m.content)], m.createdAt)] + ToUIMessages(msgs[1..])
  }

  /** Reads a stored message back from its UI form (the text of its first part). */
  function FromUIMessages(ui: seq<UIMessage>): (r: seq<StoredMessage>)
    requires forall i :: 0 <= i < |ui| ==> |ui[i].parts| > 0
    ensures |r| == |ui|
    ensures forall i :: 0 <= i < |ui| ==> r[i] == StoredMessage(ui[i].id, ui[i].role, ui[i].parts[0].text, ui[i].createdAt)
  {
    if ui == [] then []
    else [StoredMessage(ui[0].id, ui[0].role, ui[0].parts[0].text, ui[0].createdAt)] + FromUIMessages(ui[1..])
  }

  /** Loading loses nothing: the stored messages are read back from the UI messages. */
  lemma {:induction false} FromUIMessagesOfToUIMessages(msgs: seq<StoredMessage>)
    ensures FromUIMessages(ToUIMessages(msgs)) == msgs
  {
    if msgs != [] {
      var ui := ToUIMessages(msgs);
      assert ui[1..] == ToUIMessages(msgs[1..]);
      FromUIMessagesOfToUIMessages(msgs[1..]);
    }
  }

  /** Mapping distributes over concatenation. */
  lemma {:induction false} ToUIMessagesAppend(a: seq<StoredMessage>, b: seq<StoredMessage>)
    ensures ToUIMessages(a + b) == ToUIMessages(a) + ToUIMessages(b)
  {
    if a != [] {
      assert (a + b)[1..] == a[1..] + b;
      ToUIMessagesAppend(a[1..], b);
    }
  }

  /** `loadMessages`: `[]` without a chat (or with an empty one), otherwise its messages in UI form. */
  function LoadMessages(chats: map<string, seq<StoredMessage>>, chatKey: string): (r: seq<UIMessage>)
    ensures chatKey !in chats ==> r == []
    ensures chatKey in chats ==>
              (forall i :: 0 <= i < |r| ==> |r[i].parts| == 1) && FromUIMessages(r) == chats[chatKey]
  {
    if chatKey !in chats || |chats[chatKey]| == 0 then []
    else
      FromUIMessagesOfToUIMessages(chats[chatKey]);
      ToUIMessages(chats[chatKey])
  }

  /** `new Set(existing.messages.map((m) => m.id))`. */
  function IdsOf(msgs: seq<StoredMessage>): (r: set<string>)
    ensures forall id :: id in r <==> exists i :: 0 <= i < |msgs| && msgs[i].id == id
  {
    set i | 0 <= i < |msgs| :: msgs[i].id
  }

  /** `messages.filter((m) => !existingIds.has(m.id))`: the batch's messages whose id is not
      stored, each as often as in the batch, in the batch's order. */
  function NotYetStored(batch: seq<StoredMessage>, ids: set<string>): (r: seq<StoredMessage>)
    ensures forall m :: multiset(r)[m] == if m.id in ids then 0 else multiset(batch)[m]
    ensures forall i :: 0 <= i < |r| ==> r[i].id !in ids
  {
    if batch == [] then []
    else
      var rest := NotYetStored(batch[1..], ids);
      assert batch == [batch[0]] + batch[1..];
      if batch[0].id in ids then rest else [batch[0]] + rest
  }

  /** Filtering works message by message, so it keeps the batch's order. */
  lemma {:induction false} NotYetStoredAppend(a: seq<StoredMessage>, b: seq<StoredMessage>, ids: set<string>)
    ensures NotYetStored(a + b, ids) == NotYetStored(a, ids) + NotYetStored(b, ids)
  {
    if a != [] {
      assert (a + b)[1..] == a[1..] + b;
      NotYetStoredAppend(a[1..], b, ids);
      if a[0].id in ids {
        assert NotYetStored(a + b, ids) == NotYetStored(a[1..] + b, ids);
      } else {
        assert NotYetStored(a + b, ids) == [a[0]] + NotYetStored(a[1..] + b, ids);
      }
    } else {
      assert a + b == b;
    }
  }

  /** A batch whose ids are all stored adds nothing. */
  lemma {:induction false} NotYetStoredOfStored(batch: seq<StoredMessage>, ids: set<string>)
    requires forall i :: 0 <= i < |batch| ==> batch[i].id in ids
    ensures NotYetStored(batch, ids) == []
  {
    if batch != [] { NotYetStoredOfStored(batch[1..], ids); }
  }

  /** The chats table after `saveMessages`: an existing chat gets the not yet stored messages
      appended; a new chat stores the batch as it is. */
  function Saved(chats: map<string, seq<StoredMessage>>, chatKey: string, batch: seq<StoredMessage>)
    : map<string, seq<StoredMessage>>
  {
    if chatKey in chats then chats[chatKey := chats[chatKey] + NotYetStored(batch, IdsOf(chats[chatKey]))]
    else chats[chatKey := batch]
  }

  /** Saving keeps the stored messages as an unchanged prefix and touches no other chat. */
  lemma SavedKeepsPrefix(chats: map<string, seq<StoredMessage>>, chatKey: string, batch: seq<StoredMessage>)
    ensures var after := Saved(chats, chatKey, batch);
            && chatKey in after && after.Keys == chats.Keys + {chatKey}
            && (chatKey in chats ==> |chats[chatKey]| <= |after[chatKey]| && after[chatKey][..|chats[chatKey]|] == chats[chatKey])
            && (forall k :: k in chats && k != chatKey ==> after[k] == chats[k])
  {
    if chatKey in chats {
      var stored := chats[chatKey];
      assert (stored + NotYetStored(batch, IdsOf(stored)))[..|stored|] == stored;
    }
  }

  /** Every message of the batch is stored afterwards, by id. */
  lemma {:induction false} SavedStoresEveryId(chats: map<string, seq<StoredMessage>>, chatKey: string, batch: seq<StoredMessage>)
    ensures forall i :: 0 <= i < |batch| ==> batch[i].id in IdsOf(Saved(chats, chatKey, batch)[chatKey])
  {
    var after := Saved(chats, chatKey, batch)[chatKey];
    forall i | 0 <= i < |batch| ensures batch[i].id in IdsOf(after) {
      if chatKey in chats {
        var stored := chats[chatKey];
        var added := NotYetStored(batch, IdsOf(stored));
        assert after == stored + added;
        if batch[i].id in IdsOf(stored) {
          var k :| 0 <= k < |stored| && stored[k].id == batch[i].id;
          assert after[k] == stored[k];
        } else {
          assert batch[i] in multiset(batch);
          assert batch[i] in multiset(added);
          var k :| 0 <= k < |added| && added[k] == batch[i];
          assert after[|stored| + k] == added[k];
        }
      } else {
        assert after[i] == batch[i];
      }
    }
  }

  /** Saving the same batch again is a no-op. */
  lemma {:induction false} ResaveIsNoop(chats: map<string, seq<StoredMessage>>, chatKey: string, batch: seq<StoredMessage>)
    ensures Saved(Saved(chats, chatKey, batch), chatKey, batch) == Saved(chats, chatKey, batch)
  {
    var once := Saved(chats, chatKey, batch);
    SavedStoresEveryId(chats, chatKey, batch);
    NotYetStoredOfStored(batch, IdsOf(once[chatKey]));
    assert once[chatKey] + [] == once[chatKey];
  }

  /** A new chat stores the batch verbatim: duplicate ids inside one batch are not removed. */
  lemma NewChatStoresBatch(chats: map<string, seq<StoredMessage>>, chatKey: string, batch: seq<StoredMessage>)
    requires chatKey !in chats
    ensures Saved(chats, chatKey, batch)[chatKey] == batch
  {
  }

  /** What the UI loads after a save: the old history followed by the new messages. */
  lemma LoadAfterSave(chats: map<string, seq<StoredMessage>>, chatKey: string, batch: seq<StoredMessage>)
    requires chatKey in chats
    ensures LoadMessages(Saved(chats, chatKey, batch), chatKey) ==
              LoadMessages(chats, chatKey) + ToUIMessages(NotYetStored(batch, IdsOf(chats[chatKey])))
  {
    ToUIMessagesAppend(chats[chatKey], NotYetStored(batch, IdsOf(chats[chatKey])));
  }

  /** `saveMessages`: patch the chat with the key, or insert a new one. */
  method SaveMessages(db: Database, chatKey: string, messages: seq<StoredMessage>)
    modifies db`chats
    ensures db.chats == Saved(old(db.chats), chatKey, messages)
  {
    if chatKey in db.chats {
      var existing := db.chats[chatKey];
      var existingIds := IdsOf(existing);
      var newMessages := NotYetStored(messages, existingIds);
      db.chats := db.chats[chatKey := existing + newMessages];
    } else {
      db.chats := db.chats[chatKey := messages];
    }
  }
}
