/** The chat-chunk coalescer of `App.tsx`: streamed deltas are merged per message
    and reach the chat on a timer, and on unmount whatever is left is drained. */
module ChunkBuffer {
  import opened Prelude

  type Text = seq<CodeUnit>

  function Get(m: map<string, Text>, id: string): Text {
    if id in m then m[id] else []
  }

  /** Every message's text in the chat, followed by what is buffered for it, is
      what was streamed. */
  ghost predicate Complete(chat: map<string, Text>, buf: map<string, Text>, streamed: map<string, Text>) {
    forall id :: Get(chat, id) + Get(buf, id) == Get(streamed, id)
  }

  lemma Buffered(chat: map<string, Text>, buf: map<string, Text>, streamed: map<string, Text>, id: string, delta: Text)
    requires Complete(chat, buf, streamed)
    ensures Complete(chat, buf[id := Get(buf, id) + delta], streamed[id := Get(streamed, id) + delta])
  {
    var buf', streamed' := buf[id := Get(buf, id) + delta], streamed[id := Get(streamed, id) + delta];
    forall m ensures Get(chat, m) + Get(buf', m) == Get(streamed', m) {
      assert Get(chat, m) + Get(buf, m) == Get(streamed, m);
      if m == id {
        ConcatAssoc(Get(chat, m), Get(buf, m), delta);
      } else {
        assert Get(buf', m) == Get(buf, m) && Get(streamed', m) == Get(streamed, m);
      }
    }
  }

  /** `appendChatChunk` for every buffered message. */
  function Appended(chat: map<string, Text>, buf: map<string, Text>): map<string, Text> {
    map id | id in chat.Keys + buf.Keys :: Get(chat, id) + Get(buf, id)
  }

  class Coalescer {
    var chat: map<string, Text>
    var buf: map<string, Text>
    var timer: bool
    ghost var streamed: map<string, Text>

    /** Chat and buffer together hold what was streamed, and a buffered delta
        always has a timer running that will deliver it. */
    ghost predicate Valid()
      reads this
    {
      && Complete(chat, buf, streamed)
      && (buf != map[] ==> timer)
    }

    constructor (chat: map<string, Text>)
      ensures Valid() && this.chat == chat && streamed == chat && buf == map[] && !timer
    {
      this.chat, buf, timer, streamed := chat, map[], false, chat;
    }

    method AppendChatChunk(id: string, delta: Text)
      modifies this`chat
      ensures chat == old(chat)[id := Get(old(chat), id) + delta]
    {
      chat := chat[id := (if id in chat then chat[id] else []) + delta];
    }

    method ScheduleChunk(id: string, delta: Text)
      requires Valid()
      modifies this
      ensures Valid() && timer && chat == old(chat)
      ensures streamed == old(streamed)[id := Get(old(streamed), id) + delta]
    {
      Buffered(chat, buf, streamed, id, delta);
      streamed := streamed[id := Get(streamed, id) + delta];
      buf := buf[id := (if id in buf then buf[id] else []) + delta];
      if timer { return; }
      timer := true;
    }

    /** Walks a detached buffer and appends each entry. */
    method Deliver(taken: map<string, Text>)
      modifies this`chat
      ensures chat == Appended(old(chat), taken)
    {
      var rest := taken;
      while rest != map[]
        invariant Appended(chat, rest) == Appended(old(chat), taken)
        decreases rest.Keys
      {
        var id :| id in rest;
        ghost var before := chat;
        AppendChatChunk(id, rest[id]);
        DeliverOne(before, rest, id);
        rest := rest - {id};
      }
      AppendNothing(chat);
    }

    /** The timer callback. */
    method Fire()
      requires Valid() && timer
      modifies this
      ensures Valid() && !timer && buf == map[] && streamed == old(streamed)
      ensures forall id :: Get(chat, id) == Get(streamed, id)
    {
      timer := false;
      var taken := buf;
      buf := map[];
      Deliver(taken);
    }

    /** The effect's cleanup: cancel the timer and drain. */
    method Cleanup()
      requires Valid()
      modifies this
      ensures Valid() && !timer && buf == map[] && streamed == old(streamed)
      ensures forall id :: Get(chat, id) == Get(streamed, id)
    {
      if timer { timer := false; }
      var taken := buf;
      buf := map[];
      Deliver(taken);
    }
  }

  lemma AppendNothing(chat: map<string, Text>)
    ensures Appended(chat, map[]) == chat
  {
    forall id | id in chat ensures Appended(chat, map[])[id] == chat[id] {
      assert chat[id] + [] == chat[id];
    }
  }

  lemma DeliverOne(chat: map<string, Text>, rest: map<string, Text>, id: string)
    requires id in rest
    ensures Appended(chat[id := Get(chat, id) + rest[id]], rest - {id}) == Appended(chat, rest)
  {
    var chat' := chat[id := Get(chat, id) + rest[id]];
    var rest' := rest - {id};
    assert chat'.Keys + rest'.Keys == chat.Keys + rest.Keys;
    forall m | m in chat.Keys + rest.Keys ensures Get(chat', m) + Get(rest', m) == Get(chat, m) + Get(rest, m) {
    }
  }
}
