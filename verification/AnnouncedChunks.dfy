/** The gate seen from the announce body: parsing, waiting and uploading together. */
module AnnouncedChunks {
  import opened Announce
  import opened System
  import opened SystemTheorems

  /**
   * A name written whole in a forwarded body is a chunk that masterd already has: if the transcoder
   * had completed the file before posting the body, it has been renamed into the session dir.
   */
  lemma WrittenNameHasLanded(cfg: Config, pre: seq<Action>, id: nat, body: string, post: seq<Action>,
                             front: string, name: string, tail: string, back: string)
    requires body == front + (name + tail + back)
    requires IsReference(name, PREFIXES) && AllNameChars(tail) && forall i :: 0 <= i < |tail| ==> !IsAlnum(tail[i])
    requires front == "" || !IsNameChar(front[|front| - 1])
    requires back == "" || !IsNameChar(back[0])
    requires Exec(Init(cfg), pre + [PostAnnounce(id, References(body))] + post).Some?
    ensures
      var before := Exec(Init(cfg), pre);
      var s := Exec(Init(cfg), pre + [PostAnnounce(id, References(body))] + post).value;
      && before.Some? && id in s.gates
      && ((s.gates[id].pc.Passed? || s.gates[id].pc.Forwarded?) && !s.reaped && name in before.value.done ==>
            name in s.server.landed && s.server.landed[name] == before.value.done[name])
  {
    NameIsReferenced(front, name, tail, back);
    ChunkBeforeAnnounce(cfg, pre, id, References(body), post);
  }
}
