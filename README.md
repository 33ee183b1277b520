# WebCord preload bridge

A model of the preload script that WebCord runs in every page it loads
(`sources/code/renderer/preload/main.ts`). The script chooses a mode from the
page's protocol. A local `file:` page gets only the localisation table,
exposed as `webcord`. A live page gets a bridging key, announced to the main
process on the "api-exposed" IPC channel, and three listeners that run for the
life of the page:

- a paste listener that works around a clipboard ordering defect with a
  one-shot latch `lock`: a paste whose clipboard offers exactly an image
  format followed by `text/html` is intercepted once (the clipboard is
  rewritten with the image and HTML just read, `stopImmediatePropagation` is
  called, and
  "paste-workaround" is sent with the key); every other paste re-arms the
  latch;
- on Linux only, a dragstart listener that cancels dragging HTML images and
  links;
- an IPC listener that hands the path of an inbound "navigate" command to
  `navigate`.

Files:

- `wrappers.dfy`: `Option`.
- `ipc.dfy`: the bridging key and the outbound messages.
- `paste_latch.dfy`: one paste handler call as a pure transition `OnPaste`,
  a run of paste events as a fold of it (`LockAfter`, `Reactions`, `Sent`,
  `Writes`), and the lemmas about runs.
- `drag_guard.dfy`: the dragstart target and the listener's test.
- `preload.dfy`: the mode, the exposure, and the class `Session` for one
  loaded page. `lock` is the real state the script updates. Ghost logs record
  the IPC messages sent, the paste events handled, the clipboard writes and
  the navigations. `Session.Valid()` ties the latch, the outbox and the clipboard-write log to the fold
  of `OnPaste` over the paste events handled so far.

Electron's clipboard, IPC and context bridge are modelled as values. The
clipboard snapshot seen by one paste (`Clipboard`: its formats, image and
HTML) is a parameter of `HandlePaste`. IPC sends are appended to
`Session.outbox`. `generateSafeKey()` is the constructor parameter
`generatedKey`. The platform and the protocol are constructor parameters.

Details of the script that the model keeps:

- The key is announced on the channel "api-exposed" (main.ts:30).
- The live branch never calls `exposeInMainWorld`; only `file:` pages get an
  exposed object (main.ts:14-19).
- The drag guard is installed inside the live branch (main.ts:70), so it never
  prevents anything on a `file:` page, even on Linux.
- The paste listener has no platform test (main.ts:42-60); it runs on every
  live page.

## Model

| member | source | states |
|---|---|---|
| `PasteLatch.OnPaste` | sources/code/renderer/preload/main.ts:42-59 | a paste is intercepted iff its format list has exactly two entries, the first starting with "image/" and the second equal to "text/html", and the latch is armed; an intercepted paste disarms the latch, writes exactly the image and HTML just read, calls `stopImmediatePropagation` and sends "paste-workaround" with the key; any other paste re-arms the latch and has no effect |
| `PasteLatch.ReactionAt` | sources/code/renderer/preload/main.ts:41-60 | in a run of paste events, event i gets the reaction of one handler call with the latch left by the events before it |
| `PasteLatch.RunReactionAt` | sources/code/renderer/preload/main.ts:43-59 | in a run, event i is intercepted iff it has the image-and-HTML shape and the latch is armed before it; an intercepted event writes its own image and HTML, reports with the key and leaves the latch disarmed; any other event does nothing and leaves the latch armed, whatever its formats |
| `PasteLatch.NeverTwiceInARow` | sources/code/renderer/preload/main.ts:44-58 | over any sequence of paste events, the workaround never applies to two consecutive events |
| `PasteLatch.SentCarriesKey` | sources/code/renderer/preload/main.ts:55 | every message the paste listener sends is "paste-workaround" carrying the bridging key |
| `PasteLatch.WritesComeFromEvents` | sources/code/renderer/preload/main.ts:49-52 | every clipboard write rewrites the image and HTML read during one of the paste events |
| `PasteLatch.ImageThenTextExample` | sources/code/renderer/preload/main.ts:41-59 | from an armed latch, ["image/png", "text/html"] is intercepted and disarms; a following ["text/plain"] passes through and re-arms |
| `Preload.Session.constructor` | sources/code/renderer/preload/main.ts:8-41 | the mode is offline iff the protocol is "file:"; an offline page exposes only `l10n` under "webcord" and sends nothing; a live page exposes nothing here, sends exactly "api-exposed" with the generated key, and starts with the latch armed |
| `Preload.Session.HandlePaste` | sources/code/renderer/preload/main.ts:42-60 | on a live page one paste is one `OnPaste` step: the new latch and the reaction are the step's; the message sent (if any) is appended to the outbox and the write (if any) to the clipboard log; `Valid()` keeps the latch and the logs equal to the fold over all pastes so far; an offline page has no paste listener and nothing changes |
| `Preload.Session.DragStartPrevented` | sources/code/renderer/preload/main.ts:70-78 | dragstart's default is prevented iff the page is live, the platform is "linux", the target is non-null, is an `HTMLElement`, and its node name is "IMG" or "A" |
| `Preload.Session.HandleNavigate` | sources/code/renderer/preload/main.ts:84-86 | on a live page an inbound "navigate" hands its path to `navigate` exactly once and sends no message; an offline page does not listen |
| `Preload.OutboxOrder` | sources/code/renderer/preload/main.ts:25-55 | on a live page "api-exposed" with the key is the first message and is never sent again; every later message is "paste-workaround" with the same key; an offline page has sent nothing |

## Left out

- Electron's `contextBridge`, `ipcRenderer` and `clipboard` are not called. They are modelled as values and logs. What `clipboard.write` does to the order of formats is platform behaviour that is not modelled.
- `generateSafeKey` randomness: the key is an opaque parameter.
- The `load` handlers are not modelled. One sets the logo's `src` from the app icon on `file:` pages. The other writes `hideNag` to local storage on live pages. Both are DOM I/O with no logic.
- `L10N`, `appInfo`, `console.debug` and `wLog` are external modules and logging. The `l10n` table is modelled by its name only.
- The body of `navigate` (in `../modules/api`) is not part of this model. A call is a path appended to `Session.navigations`.
- HandlePaste: the Electron calls of the workaround (`clipboard.readImage`, `readHTML`, `write`, `stopImmediatePropagation`, `ipc.send`) are assumed not to throw, so one paste is an atomic step. In the script the latch is cleared first (main.ts:47), before those calls (main.ts:49-55); if one of them throws, the listener exits with the latch disarmed and skips every later call; depending on which call threw, the clipboard may already be rewritten and propagation already stopped, with no message sent. The next paste re-arms the latch. Clearing the latch first keeps "never twice in a row" true on that path too, but the model does not reach that state.
- Event-loop semantics are not modelled: listener registration, the capture phase, and what `stopImmediatePropagation` does to other listeners. Whether `stopImmediatePropagation` is called is the returned `stopImmediatePropagation` flag.
