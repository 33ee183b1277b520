/**
 * The preload script of a page: the mode chosen from the page's protocol, what
 * is exposed to the page, the bridging key announced to the main process, and
 * the listeners that run for the life of the page (paste, dragstart and the
 * inbound "navigate" command).
 */
module Preload {
  import opened Wrappers
  import opened Ipc
  import opened PasteLatch
  import opened DragGuard

  /** Offline: a local `file:` page. Live: any other page. */
  datatype Mode = Offline | Live

  function ModeOf(protocol: string): Mode
  {
    if protocol == "file:" then Offline else Live
  }

  /** A `contextBridge.exposeInMainWorld` binding: its name and its member names. */
  datatype Exposure = Exposure(name: string, members: seq<string>)

  /** What an offline page gets: the localisation table under "webcord". */
  const OfflineExposure: Exposure := Exposure("webcord", ["l10n"])

  /**
   * One loaded page with its preload script. The latch `lock` is the only
   * state the script updates; the ghost fields log what it has done so far:
   * the IPC messages sent, the paste events handled, the clipboard writes and
   * the paths handed to `navigate`.
   */
  class Session {
    const mode: Mode
    const platform: string
    const key: Key
    const exposed: seq<Exposure>
    var lock: bool
    ghost var outbox: seq<Outbound>
    ghost var pastes: seq<Clipboard>
    ghost var clipboardWrites: seq<ClipboardWrite>
    ghost var navigations: seq<string>

    /**
     * An offline page has exposed only the localisation table and has done
     * nothing else. A live page has announced its key and then handled its
     * paste events one after the other, from an armed latch.
     */
    ghost predicate Valid()
      reads this
    {
      && (mode == Offline ==>
            exposed == [OfflineExposure] && lock
            && outbox == [] && pastes == [] && clipboardWrites == [] && navigations == [])
      && (mode == Live ==>
            exposed == []
            && lock == LockAfter(true, key, pastes)
            && outbox == [ApiExposed(key)] + Sent(Reactions(true, key, pastes))
            && clipboardWrites == Writes(Reactions(true, key, pastes)))
    }

    /**
     * Runs the preload script for a page with protocol `protocol` on platform
     * `platform`. `generatedKey` stands for the value of `generateSafeKey()`,
     * which only the live branch calls.
     */
    constructor (protocol: string, platform: string, generatedKey: Key)
      ensures Valid()
      ensures mode == ModeOf(protocol) && this.platform == platform && key == generatedKey
      ensures mode == Offline ==> exposed == [OfflineExposure] && outbox == []
      ensures mode == Live ==> exposed == [] && outbox == [ApiExposed(generatedKey)]
      ensures lock
      ensures pastes == [] && clipboardWrites == [] && navigations == []
    {
      mode := ModeOf(protocol);
      this.platform := platform;
      key := generatedKey;
      lock := true;
      pastes := [];
      clipboardWrites := [];
      navigations := [];
      if protocol == "file:" {
        exposed := [OfflineExposure];
        outbox := [];
      } else {
        exposed := [];
        outbox := [ApiExposed(generatedKey)];
      }
    }

    /**
     * A paste event reaching the document with clipboard `clip`. An offline
     * page has no paste listener. On a live page the listener applies the
     * workaround once to an image-and-HTML clipboard and re-arms otherwise.
     */
    method HandlePaste(clip: Clipboard) returns (r: Reaction)
      requires Valid()
      modifies this`lock, this`outbox, this`pastes, this`clipboardWrites
      ensures Valid()
      ensures mode == Offline ==> r == Pass && unchanged(this)
      ensures mode == Live ==>
                && Transition(lock, r) == OnPaste(old(lock), key, clip)
                && pastes == old(pastes) + [clip]
                && outbox == old(outbox) + (if r.message.Some? then [r.message.value] else [])
                && clipboardWrites == old(clipboardWrites) + (if r.write.Some? then [r.write.value] else [])
    {
      if mode == Offline {
        return Pass;
      }
      var formats := clip.formats;
      if |formats| == 2 && StartsWith(formats[0], "image/") && formats[1] == "text/html" && lock {
        lock := false;
        var written := ClipboardWrite(clip.image, clip.html);
        clipboardWrites := clipboardWrites + [written];
        outbox := outbox + [PasteWorkaround(key)];
        r := Reaction(true, Some(written), Some(PasteWorkaround(key)));
      } else {
        lock := true;
        r := Pass;
      }
      ghost var before := pastes;
      pastes := pastes + [clip];
      assert pastes[..|before|] == before;
      assert Reactions(true, key, pastes) == Reactions(true, key, before) + [r];
      assert Reactions(true, key, pastes)[..|before|] == Reactions(true, key, before);
    }

    /**
     * Whether a dragstart event on `target` has its default prevented: the
     * guard is installed only on live pages on Linux, and there it cancels
     * dragging an HTML image or link.
     */
    function DragStartPrevented(target: DragTarget): (prevented: bool)
      ensures platform != "linux" ==> !prevented
      ensures prevented <==>
                && mode == Live
                && platform == "linux"
                && target.HtmlElement?
                && (target.nodeName == "IMG" || target.nodeName == "A")
    {
      mode == Live && platform == AffectedPlatform && ListenerPrevents(target)
    }

    /**
     * An inbound "navigate" command with `path`. A live page hands the path
     * to `navigate` and sends nothing back; an offline page does not listen.
     */
    method HandleNavigate(path: string)
      requires Valid()
      modifies this`navigations
      ensures Valid()
      ensures mode == Live ==> navigations == old(navigations) + [path]
      ensures mode == Offline ==> navigations == old(navigations)
      ensures outbox == old(outbox)
    {
      if mode == Live {
        navigations := navigations + [path];
      }
    }
  }

  /**
   * On a live page "api-exposed" with the key is the first message sent and
   * is never sent again; every later message is "paste-workaround" with the
   * same key. An offline page sends nothing.
   */
  lemma OutboxOrder(s: Session)
    requires s.Valid()
    ensures s.mode == Offline ==> s.outbox == []
    ensures s.mode == Live ==>
              && |s.outbox| >= 1
              && s.outbox[0] == ApiExposed(s.key)
              && forall i :: 1 <= i < |s.outbox| ==> s.outbox[i] == PasteWorkaround(s.key)
  {
    if s.mode == Live {
      var sent := Sent(Reactions(true, s.key, s.pastes));
      SentCarriesKey(true, s.key, s.pastes);
      forall i | 1 <= i < |s.outbox|
        ensures s.outbox[i] == PasteWorkaround(s.key)
      {
        assert s.outbox[i] == sent[i - 1] && sent[i - 1] in sent;
      }
    }
  }
}
