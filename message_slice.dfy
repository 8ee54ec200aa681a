/** The `inbox` slice (src/redux/features/MessageSlice.tsx), taken on its own. */
module MessageSlice {
  import opened Wrappers
  import opened Entities
  import opened SliceSpec

  /** `updateReadStatus` on a list: the first message with id `k` gets `read = true`. */
  function ReadMarked(s: seq<Message>, k: string): seq<Message> {
    var i := FirstIndex(s, MessageId, Some(k));
    if i == -1 then s else s[i := s[i].(read := true)]
  }

  /** Only the first message with id `k` may change, and in it only `read`, which becomes true. */
  lemma ReadMarkedFrame(s: seq<Message>, k: string)
    ensures |ReadMarked(s, k)| == |s|
    ensures forall j :: 0 <= j < |s| ==>
      ReadMarked(s, k)[j]
        == if s[j].id == Some(k) && (forall m :: 0 <= m < j ==> s[m].id != Some(k))
           then s[j].(read := true) else s[j]
  {
  }

  /** Marking never clears a read flag. */
  lemma ReadMarkedMonotone(s: seq<Message>, k: string)
    ensures forall j :: 0 <= j < |s| && s[j].read ==> ReadMarked(s, k)[j].read
  {
  }

  /** Marking the same message twice is marking it once. */
  lemma ReadMarkedIdempotent(s: seq<Message>, k: string)
    ensures ReadMarked(ReadMarked(s, k), k) == ReadMarked(s, k)
  {
    var i := FirstIndex(s, MessageId, Some(k));
    if i != -1 {
      var t := ReadMarked(s, k);
      assert FirstIndex(t, MessageId, Some(k)) == i by {
        assert t[i].id == Some(k);
        assert forall j :: 0 <= j < i ==> t[j].id != Some(k);
      }
    }
  }

  /** Marking an id that no message carries changes nothing. */
  lemma ReadMarkedAbsent(s: seq<Message>, k: string)
    requires forall j :: 0 <= j < |s| ==> s[j].id != Some(k)
    ensures ReadMarked(s, k) == s
  {
  }

  class Inbox {
    var state: seq<Message>

    /** The initial state is the empty list. */
    constructor ()
      ensures state == []
    {
      state := [];
    }

    /** `setMessages`: the payload becomes the state. */
    method SetMessages(payload: seq<Message>)
      modifies this
      ensures state == payload
    {
      state := payload;
    }

    /** `updateReadStatus`: sets `read` on the first message with the given `_id`, in place. */
    method UpdateReadStatus(id: string)
      modifies this
      ensures state == ReadMarked(old(state), id)
    {
      var index := FindIndex(state, MessageId, Some(id));
      if index != -1 {
        state := state[index := state[index].(read := true)];
      }
    }

    /** `deleteMessage`: every message whose `_id` is the payload is dropped. */
    method DeleteMessage(id: string)
      modifies this
      ensures state == RemoveAll(old(state), MessageId, id)
    {
      state := RemoveAll(state, MessageId, id);
    }

    /** `addNewMessage`: `unshift`, so the new message comes first. */
    method AddNewMessage(payload: Message)
      modifies this
      ensures state == [payload] + old(state)
      ensures |state| == |old(state)| + 1
    {
      state := [payload] + state;
    }
  }
}
