/**
 * The clipboard paste workaround of the live preload branch: a one-shot latch
 * over the boolean `lock` (true means armed). A paste whose clipboard offers
 * exactly an image format followed by "text/html" is intercepted once; every
 * other paste re-arms the latch.
 *
 * This module states one handler call as a pure transition (`OnPaste`) and a
 * sequence of paste events as a fold of it (`LockAfter`, `Reactions`).
 */
module PasteLatch {
  import opened Wrappers
  import opened Ipc

  /** An image as read from the system clipboard (its encoded bytes). */
  datatype NativeImage = NativeImage(bytes: seq<bv8>)

  /**
   * What the handler sees of the system clipboard during one paste event:
   * the list of available formats, the image and the HTML it would read.
   */
  datatype Clipboard = Clipboard(formats: seq<string>, image: NativeImage, html: string)

  /** One combined write of an image and an HTML payload to the clipboard. */
  datatype ClipboardWrite = ClipboardWrite(image: NativeImage, html: string)

  /**
   * The observable effects of one paste handler call: whether the event's
   * `stopImmediatePropagation` is called, the clipboard write performed (if
   * any) and the IPC message sent (if any).
   */
  datatype Reaction = Reaction(stopImmediatePropagation: bool, write: Option<ClipboardWrite>, message: Option<Outbound>)

  /** The reaction of a paste the handler lets through untouched. */
  const Pass: Reaction := Reaction(false, None, None)

  /** The handler's latch after an event, with what the event caused. */
  datatype Transition = Transition(lock: bool, reaction: Reaction)

  /** JavaScript's `s.startsWith(prefix)`. */
  predicate StartsWith(s: string, prefix: string)
  {
    |prefix| <= |s| && s[..|prefix|] == prefix
  }

  /**
   * The clipboard shape of the platform defect: exactly two formats, an image
   * MIME type first and "text/html" second.
   */
  predicate IsImageHtmlPair(formats: seq<string>)
  {
    |formats| == 2 && StartsWith(formats[0], "image/") && formats[1] == "text/html"
  }

  /** One call of the paste listener with latch `lock`, under bridging key `key`. */
  function OnPaste(lock: bool, key: Key, clip: Clipboard): (t: Transition)
    ensures t.reaction.stopImmediatePropagation <==> IsImageHtmlPair(clip.formats) && lock
    ensures t.reaction.stopImmediatePropagation ==>
              !t.lock
              && t.reaction.write == Some(ClipboardWrite(clip.image, clip.html))
              && t.reaction.message == Some(PasteWorkaround(key))
    ensures !t.reaction.stopImmediatePropagation ==> t.lock && t.reaction == Pass
  {
    if IsImageHtmlPair(clip.formats) && lock then
      var written := ClipboardWrite(clip.image, clip.html);
      Transition(false, Reaction(true, Some(written), Some(PasteWorkaround(key))))
    else
      Transition(true, Pass)
  }

  /** The latch after the paste events `events`, starting from `lock`. */
  function LockAfter(lock: bool, key: Key, events: seq<Clipboard>): bool
    decreases |events|
  {
    if events == [] then lock
    else
      var n := |events| - 1;
      OnPaste(LockAfter(lock, key, events[..n]), key, events[n]).lock
  }

  /** The reaction to each of the paste events `events`, starting from `lock`. */
  function Reactions(lock: bool, key: Key, events: seq<Clipboard>): (rs: seq<Reaction>)
    ensures |rs| == |events|
    decreases |events|
  {
    if events == [] then []
    else
      var n := |events| - 1;
      Reactions(lock, key, events[..n]) + [OnPaste(LockAfter(lock, key, events[..n]), key, events[n]).reaction]
  }

  /** The IPC messages sent by the reactions `rs`, in order. */
  function Sent(rs: seq<Reaction>): seq<Outbound>
    decreases |rs|
  {
    if rs == [] then []
    else
      var n := |rs| - 1;
      Sent(rs[..n]) + (if rs[n].message.Some? then [rs[n].message.value] else [])
  }

  /** The clipboard writes performed by the reactions `rs`, in order. */
  function Writes(rs: seq<Reaction>): seq<ClipboardWrite>
    decreases |rs|
  {
    if rs == [] then []
    else
      var n := |rs| - 1;
      Writes(rs[..n]) + (if rs[n].write.Some? then [rs[n].write.value] else [])
  }

  /** Unfolding `LockAfter` at an arbitrary prefix. */
  lemma LockAfterStep(lock: bool, key: Key, events: seq<Clipboard>, i: nat)
    requires i < |events|
    ensures LockAfter(lock, key, events[..i + 1]) == OnPaste(LockAfter(lock, key, events[..i]), key, events[i]).lock
  {
    assert events[..i + 1][..i] == events[..i];
  }

  /** The reaction to event `i` is one handler call with the latch left by the events before it. */
  lemma {:induction false} ReactionAt(lock: bool, key: Key, events: seq<Clipboard>, i: nat)
    requires i < |events|
    ensures Reactions(lock, key, events)[i] == OnPaste(LockAfter(lock, key, events[..i]), key, events[i]).reaction
  {
    var n := |events| - 1;
    if i < n {
      ReactionAt(lock, key, events[..n], i);
      assert events[..n][..i] == events[..i];
    } else {
      assert events[..n] == events[..i];
    }
  }

  /**
   * Over a run of paste events, event `i` is intercepted exactly when its
   * clipboard has the image-and-HTML shape and the latch is armed before it.
   * An intercepted event rewrites the clipboard with its own image and HTML,
   * reports "paste-workaround" with the key and disarms the latch; any other
   * event has no effect and leaves the latch armed.
   */
  lemma RunReactionAt(lock: bool, key: Key, events: seq<Clipboard>, i: nat)
    requires i < |events|
    ensures var r := Reactions(lock, key, events)[i];
      && (r.stopImmediatePropagation <==> IsImageHtmlPair(events[i].formats) && LockAfter(lock, key, events[..i]))
      && (r.stopImmediatePropagation ==>
            && r.write == Some(ClipboardWrite(events[i].image, events[i].html))
            && r.message == Some(PasteWorkaround(key))
            && !LockAfter(lock, key, events[..i + 1]))
      && (!r.stopImmediatePropagation ==> r == Pass && LockAfter(lock, key, events[..i + 1]))
  {
    ReactionAt(lock, key, events, i);
    LockAfterStep(lock, key, events, i);
  }

  /** Over any run of paste events, the workaround never applies to two consecutive events. */
  lemma {:induction false} NeverTwiceInARow(lock: bool, key: Key, events: seq<Clipboard>)
    ensures var rs := Reactions(lock, key, events);
      forall i :: 0 <= i < |rs| - 1 ==> !(rs[i].stopImmediatePropagation && rs[i + 1].stopImmediatePropagation)
  {
    var rs := Reactions(lock, key, events);
    forall i | 0 <= i < |rs| - 1
      ensures !(rs[i].stopImmediatePropagation && rs[i + 1].stopImmediatePropagation)
    {
      RunReactionAt(lock, key, events, i);
      RunReactionAt(lock, key, events, i + 1);
    }
  }

  /** Every message the paste handler sends is "paste-workaround" carrying the key. */
  lemma {:induction false} SentCarriesKey(lock: bool, key: Key, events: seq<Clipboard>)
    ensures forall m :: m in Sent(Reactions(lock, key, events)) ==> m == PasteWorkaround(key)
    decreases |events|
  {
    if events != [] {
      var n := |events| - 1;
      var rs := Reactions(lock, key, events);
      SentCarriesKey(lock, key, events[..n]);
      assert rs[..n] == Reactions(lock, key, events[..n]);
      ReactionAt(lock, key, events, n);
    }
  }

  /** Each clipboard write of a run re-writes the image and HTML of one event of the run. */
  lemma {:induction false} WritesComeFromEvents(lock: bool, key: Key, events: seq<Clipboard>)
    ensures forall w :: w in Writes(Reactions(lock, key, events)) ==>
              exists e :: e in events && w == ClipboardWrite(e.image, e.html)
    decreases |events|
  {
    if events != [] {
      var n := |events| - 1;
      var rs := Reactions(lock, key, events);
      WritesComeFromEvents(lock, key, events[..n]);
      assert rs[..n] == Reactions(lock, key, events[..n]);
      ReactionAt(lock, key, events, n);
      assert events[n] in events;
      forall e | e in events[..n] ensures e in events { }
    }
  }

  /**
   * An example: from an armed latch, an image-and-HTML paste is
   * intercepted and a following plain-text paste is let through and re-arms.
   */
  lemma ImageThenTextExample(key: Key, image: NativeImage, html: string)
    ensures var events := [Clipboard(["image/png", "text/html"], image, html), Clipboard(["text/plain"], image, html)];
      && Reactions(true, key, events) == [Reaction(true, Some(ClipboardWrite(image, html)), Some(PasteWorkaround(key))), Pass]
      && !LockAfter(true, key, events[..1])
      && LockAfter(true, key, events)
  {
    var events := [Clipboard(["image/png", "text/html"], image, html), Clipboard(["text/plain"], image, html)];
    assert StartsWith("image/png", "image/");
    assert events[..1][..0] == [];
    assert events[..1] == [events[0]];
  }
}
