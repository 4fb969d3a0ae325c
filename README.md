# ClanLib X11 bookkeeping and D3D shared-resource list, modelled in Dafny

This project models the sequential bookkeeping inside ClanLib's X11 display layer and one list in its Direct3D backend, and proves properties of that model. There are four parts:

- **The X11 atom table** (`X11AtomTable`, x11_atoms.dfy).
  - It maps atom names to the atoms interned on one display.
  - It keeps a sub-table of the atoms that the window manager lists in the root window's `_NET_SUPPORTED` property, as described in the Root Window Properties section of the Extended Window Manager Hints (EWMH).
  - It models the re-read loop of `get_property`.
  - `check_net_wm_state` turns a window's `_NET_WM_STATE` list into one flag per requested state.
  - `modify_net_wm_state` builds the `_NET_WM_STATE` client message described in the Application Window Properties section of the EWMH.
  - The X server is an oracle. An `Interner` answers XInternAtom. A `PropertyServer` gives the replies to successive XGetWindowProperty calls.
- **The cached state of an X11 window** (`X11WindowState`, x11_window.dfy).
  - `create` computes the initial size, the cached minimum and maximum sizes, and the `WM_NORMAL_HINTS` fields (section 4.1.2.3 of the ICCCM).
  - `prepare` falls back to 96 PPI.
  - `set_pixel_ratio` chooses a ratio by PPI bucket.
  - `set_position` and `set_size` require the window to be mapped.
  - Also covered: `destroy`, the inline accessors and the throwing clipboard stubs.
- **The X11 display message queue** (`X11MessageQueue`, display_message_queue.dfy).
  - The registry of one thread: `windows`, `windows_born` and `windows_died`.
  - The mouse-capture window.
  - The drain of the event queue in `process_message` and the registry update after it.
  - The timeout arithmetic and the return decision of `process`.
  - The memoised display connection and OpenGL library handle.
- **The D3D shared-resource list** (`D3DShare`, d3d_share_list.dfy).
  - `resource_created` appends a resource and returns an iterator to it.
  - `resource_destroyed` erases the resource an iterator names.
  - `device_destroyed` notifies every resource in order.

Two shared modules are also part of the project:

- `Wrappers` holds `Option`, `Result` and `Outcome`. A C++ `throw` becomes a failure value, and a null pointer becomes `None`.
- `Geometry` holds `Point`, `Size` and `Rect`.

State that the C++ code updates in place becomes fields of a Dafny class: `X11Atoms`, `X11Window`, `DisplayMessageQueue` and `D3DShareList`. Their methods have `modifies` clauses, and each postcondition states the new state as a function of the old state and the inputs. The source's loops appear as `while`/`for` loops with invariants. Examples are the property re-read, both loops of `populate`, the flag loop of `check_net_wm_state`, the drain, the registry fold, the rounds of `process` and the notification loop.

Notes on behaviour the model follows from the code:

- `run()` is `process(-1)`. The remaining time is then negative, so `select` gets a zero wait: `run` polls instead of blocking without bound (`RunPollsWithoutBlocking`). With `Process`, this means `run` returns true after the first round in which the poll finds nothing ready, rather than pumping events until `exit()`.
- `create` does not check the handle that XCreateWindow returns, so the model has no creation error. The only error it models is the refusal of frame-area positioning.
- A lookup of a name that was never interned is an `assert` in the code (`operator[]`), not a NotFound error. The model gives `Lookup` a precondition for it.
- `populate` itself does not clear the maps; the display constructor calls `clear()` first. `Populate` therefore states its result relative to the old maps, and the constructor states it for empty ones.
- `set_position` and `set_size` refuse only an unmapped window. An unviewable window is accepted.

`x11_window.cpp` does not compile as it stands, and the model follows its evident intent:

- `set_position`, `set_size` and `set_pixel_ratio` are window members.
- `set_pixel_ratio` stores `new_ratio`.
- The root window comes from the handle's display and screen.

## Model

| member | source | states |
|---|---|---|
| X11AtomTable.FirstSettled | Sources/Display/Platform/X11/x11_atoms.cpp:196-213 | the reply that ends the do-while loop is the first failure, or the first reply with no bytes remaining |
| X11AtomTable.ReadProperty | Sources/Display/Platform/X11/x11_atoms.cpp:204-216 | the result of the settling reply: a failure gives a null buffer, no items, type `None` and format 0; a successful reply gives its data, type and format, with the item count the data's length (0 for a null buffer) |
| X11AtomTable.GetProperty | Sources/Display/Platform/X11/x11_atoms.cpp:189-217 | requests 0 bytes first, then the byte count the previous reply left; one call per reply up to the settling one; a failed call gives a null buffer, 0 items, type `None`, format 0; otherwise the last reply's data, with the item count its length |
| X11AtomTable.InternedAtoms | Sources/Display/Platform/X11/x11_atoms.cpp:36-91 | the table the name list yields: exactly the listed names, each with the atom interned with only-if-exists set |
| X11AtomTable.SupportedEntries | Sources/Display/Platform/X11/x11_atoms.cpp:157-164 | exactly the table entries whose atom is in the window manager's list, with their atoms |
| X11AtomTable.X11Atoms.Empty | Sources/Display/Platform/X11/x11_atoms.h:50 | the empty initializer: no display, screen -1, both maps empty |
| X11AtomTable.X11Atoms.constructor | Sources/Display/Platform/X11/x11_atoms.h:51-55 | clear then populate: the table is exactly the interned list, the sub-table is a sub-map of it, empty without `_NET_SUPPORTED` or a readable list, else exactly the listed entries |
| X11AtomTable.X11Atoms.Lookup | Sources/Display/Platform/X11/x11_atoms.cpp:93-105 | requires the name to be present (the source asserts it); returns its atom and inserts nothing |
| X11AtomTable.X11Atoms.Exists | Sources/Display/Platform/X11/x11_atoms.cpp:108-115 | true iff the name is present with an atom other than `None`; absent names give false |
| X11AtomTable.X11Atoms.IsHintSupported | Sources/Display/Platform/X11/x11_atoms.h:82-86 | true iff the name is a key of the sub-table; such a name has the same atom in the table when the sub-table is a sub-map of the table, as after the display constructor |
| X11AtomTable.X11Atoms.GetAtom | Sources/Display/Platform/X11/x11_atoms.cpp:118-125 | requires the table's own display; returns the interned atom and stores it under the name, overwriting |
| X11AtomTable.X11Atoms.Clear | Sources/Display/Platform/X11/x11_atoms.cpp:171-175 | both maps empty |
| X11AtomTable.X11Atoms.Populate | Sources/Display/Platform/X11/x11_atoms.cpp:128-169 | every listed name is interned over the old table; the sub-table is unchanged when `_NET_SUPPORTED` is `None` or unreadable, else gains exactly the entries whose atom is listed |
| X11AtomTable.X11Atoms.InternListed | Sources/Display/Platform/X11/x11_atoms.cpp:131-135 | the first loop of populate: the old table overridden by every name of the list with its interned atom |
| X11AtomTable.X11Atoms.AddSupported | Sources/Display/Platform/X11/x11_atoms.cpp:157-164 | the second loop of populate: the old sub-table plus exactly the table entries whose atom is among the items |
| X11AtomTable.X11Atoms.NetSupportedListed | Sources/Display/Platform/X11/x11_atoms.cpp:47 | `_NET_SUPPORTED` is one of the listed names, so populate's lookup of it is defined |
| X11AtomTable.X11Atoms.GetNamedProperty | Sources/Display/Platform/X11/x11_atoms.h:74-77 | the static read of the atom stored under the name, which must be present |
| X11AtomTable.X11Atoms.CheckNetWmState | Sources/Display/Platform/X11/x11_atoms.cpp:227-267 | empty when `_NET_WM_STATE` is `None` or unreadable; otherwise one flag per requested name, true iff its atom is not `None` and is in the window's state list |
| X11AtomTable.X11Atoms.ModifyNetWmState | Sources/Display/Platform/X11/x11_atoms.cpp:269-305 | sends nothing and returns false iff `_NET_WM_STATE` is `None`; otherwise sends the EWMH `_NET_WM_STATE` message (root window, substructure masks, format 32, action and the two atoms, source 0) and returns true iff the send status is nonzero |
| X11AtomTable.PopulatedNames | Sources/Display/Platform/X11/x11_atoms.cpp:131-135 | after populating, every listed name is a key, and its atom exists iff the server knew it |
| X11AtomTable.SupportedHintIff | Sources/Display/Platform/X11/x11_atoms.cpp:157-164 | for a table whose sub-table was built from the window manager's list, a name is a supported hint iff it is in the table and its atom is listed, and then the hint has the table's atom |
| Geometry.RectAt | Sources/Display/Platform/X11/x11_window.h:78 | the rectangle at a corner with a given size has that corner, width and height |
| X11WindowState.ScreenPpi | Sources/Display/Platform/X11/x11_window.cpp:65 | 96 when the screen is under 24 mm wide, else pixels per 25.4 mm |
| X11WindowState.RoundHalfAway | Sources/Display/Platform/X11/x11_window.cpp:221 | `std::round`: within one half of the argument, with ties away from zero |
| X11WindowState.RatioForBucket | Sources/Display/Platform/X11/x11_window.cpp:219-234 | ratio 1 up to bucket 6, a sixth step below 12, the whole ratio `s div 6` from 12 on; always at least 1 and at most `s/6` |
| X11WindowState.RatioMonotone | Sources/Display/Platform/X11/x11_window.cpp:219-234 | a higher PPI bucket never gives a smaller ratio |
| X11WindowState.ChosenPixelRatio | Sources/Display/Platform/X11/x11_window.cpp:214-235 | a nonzero ratio is kept; an unset one becomes the bucket ratio of the PPI, at least 1 |
| X11WindowState.ClampedSize | Sources/Display/Platform/X11/x11_window.cpp:114-116 | each dimension raised to at least 8 and otherwise unchanged |
| X11WindowState.SizeLimits | Sources/Display/Platform/X11/x11_window.cpp:138-139 | without resize, minimum = maximum = window size; with resize, (8, 8) and (-1, -1) |
| X11WindowState.NormalHints | Sources/Display/Platform/X11/x11_window.cpp:154-164 | the size hints carry the cached minimum and maximum, 1x1 increments, the window size as base size and north-west gravity |
| X11WindowState.CreatedSizeWithinLimits | Sources/Display/Platform/X11/x11_window.cpp:112-164 | the created size lies within its own cached limits and size hints; increments 1x1 and north-west gravity |
| X11WindowState.X11Window.constructor | Sources/Display/Platform/X11/x11_window.cpp:48-51 | zero handle, no site, colormap 0; `None` stands for the uninitialised size-hints pointer; default last position, last size, client size, limits, empty title and clipboard text; PPI 96 and pixel ratio unset (0), as at x11_window.h:295-296 |
| X11WindowState.X11Window.SetPixelRatio | Sources/Display/Platform/X11/x11_window.cpp:214-235 | the new pixel ratio is the chosen ratio for the argument and the current PPI |
| X11WindowState.X11Window.Prepare | Sources/Display/Platform/X11/x11_window.cpp:59-67 | the PPI from the screen width, then the ratio re-chosen from the old one |
| X11WindowState.X11Window.Create | Sources/Display/Platform/X11/x11_window.cpp:69-169 | handle, site, PPI, ratio and colormap set; refused iff the description positions the frame area, and then size cache and hints untouched; otherwise the last size is the clamped size, limits and hints follow from it; position, client size, title and clipboard untouched |
| X11WindowState.X11Window.Destroy | Sources/Display/Platform/X11/x11_window.cpp:171-177 | minimum and maximum size reset to the default size, title emptied |
| X11WindowState.X11Window.SetPosition | Sources/Display/Platform/X11/x11_window.cpp:195-202 | succeeds iff the attributes query works and the window is not unmapped; the cached position becomes the argument only then |
| X11WindowState.X11Window.SetSize | Sources/Display/Platform/X11/x11_window.cpp:204-211 | succeeds iff the attributes query works and the window is not unmapped; the cached size becomes the argument only then |
| X11WindowState.X11Window.GetViewport | Sources/Display/Platform/X11/x11_window.h:78 | the rectangle at the origin with the client window's size |
| X11WindowState.X11Window.GetMinimumSize | Sources/Display/Platform/X11/x11_window.h:81 | the cached minimum client size |
| X11WindowState.X11Window.GetMaximumSize | Sources/Display/Platform/X11/x11_window.h:83 | the cached maximum client size |
| X11WindowState.X11Window.GetTitle | Sources/Display/Platform/X11/x11_window.h:85 | the cached title |
| X11WindowState.X11Window.SetClipboardText | Sources/Display/Platform/X11/x11_window.h:161 | stores the text and changes no other field |
| X11WindowState.X11Window.GetGeometry | Sources/Display/Platform/X11/x11_window.h:77 | always fails |
| X11WindowState.X11Window.IsClipboardTextAvailable | Sources/Display/Platform/X11/x11_window.h:100 | always fails |
| X11WindowState.X11Window.IsClipboardImageAvailable | Sources/Display/Platform/X11/x11_window.h:101 | always fails |
| X11WindowState.X11Window.GetClipboardText | Sources/Display/Platform/X11/x11_window.h:103 | always fails, whatever text was stored |
| X11WindowState.X11Window.GetClipboardImage | Sources/Display/Platform/X11/x11_window.h:104 | always fails |
| X11WindowState.X11Window.SetClipboardImage | Sources/Display/Platform/X11/x11_window.h:162 | always fails and changes nothing |
| X11WindowState.IsVisibleAsWritten | Sources/Display/Platform/X11/x11_window.h:94 | as written: fails iff the attributes query fails, else true iff the window is not viewable |
| X11WindowState.IsVisibleAsWrittenInverted | Sources/Display/Platform/X11/x11_window.h:94 | as written, a viewable window is reported invisible and an unmapped one visible |
| X11WindowState.IsVisible | Sources/Display/Platform/X11/x11_window.h:94 | corrected: visible iff viewable; an unmapped window is invisible |
| X11MessageQueue.Find | Sources/Display/Platform/X11/display_message_queue_x11.cpp:219-220 | `find_if` with `is_target`: none iff no client has the target window, else the first such client |
| X11MessageQueue.CaptureFor | Sources/Display/Platform/X11/display_message_queue_x11.cpp:231 | the dispatch's capture window is the current capture if any, else the event's own window |
| X11MessageQueue.Drain | Sources/Display/Platform/X11/display_message_queue_x11.cpp:194-235 | the reference definition of the event loop; each dispatch consumes an event of its own, so dispatches and the events left behind together never outnumber the queue |
| X11MessageQueue.DrainLeavesSuffix | Sources/Display/Platform/X11/display_message_queue_x11.cpp:194-216 | the queue the drain leaves is a suffix of the input; it is empty or starts with an event for a newborn window that is not dying (put back); no consumed event was for a newborn window that is not dying, so the drain stops at the first one and that event is neither lost nor dispatched |
| X11MessageQueue.DrainDispatchesOnlyLive | Sources/Display/Platform/X11/display_message_queue_x11.cpp:205-234 | every dispatch is for a target neither dying nor newborn, goes to the first registered window of that target, with the capture window chosen as `CaptureFor` says |
| X11MessageQueue.DrainDispatchesInOrder | Sources/Display/Platform/X11/display_message_queue_x11.cpp:194-235 | the dispatched events are exactly the consumed events for live registered windows, each once, in queue order |
| X11MessageQueue.Filter | Sources/Display/Platform/X11/display_message_queue_x11.cpp:238-239 | corrected removal: exactly the registered clients not dying, never longer than before |
| X11MessageQueue.FilterSnoc | Sources/Display/Platform/X11/display_message_queue_x11.cpp:238-239 | removing the dying clients one at a time equals removing them all at once |
| X11MessageQueue.StdRemove | Sources/Display/Platform/X11/display_message_queue_x11.cpp:239 | `std::remove` without `erase`: the length is kept and only the leading part is the filtered list |
| X11MessageQueue.RemoveDeadAsWritten | Sources/Display/Platform/X11/display_message_queue_x11.cpp:238-239 | the removal loop as written never changes the list's length |
| X11MessageQueue.RemoveDeadAsWrittenKeepsDead | Sources/Display/Platform/X11/display_message_queue_x11.cpp:238-239 | as written, with windows `[a, b]` and `b` dying, `b` stays registered |
| X11MessageQueue.RemoveDeadAsWrittenDuplicates | Sources/Display/Platform/X11/display_message_queue_x11.cpp:238-239 | as written, with windows `[a, b]` and `a` dying, the list becomes `[b, b]` |
| X11MessageQueue.CaptureAfter | Sources/Display/Platform/X11/display_message_queue_x11.cpp:106-118 | setting captures the window; releasing clears the capture only when that window holds it, else leaves it unchanged |
| X11MessageQueue.CaptureReleaseOwnOnly | Sources/Display/Platform/X11/display_message_queue_x11.cpp:106-118 | after capturing, the holder's release clears the capture and another window's release does not |
| X11MessageQueue.Memoised | Sources/Display/Platform/X11/display_message_queue_x11.cpp:61-81 | the cached handle if there is one, else the loader's result |
| X11MessageQueue.MemoisedIdempotent | Sources/Display/Platform/X11/display_message_queue_x11.cpp:61-81 | once a handle is cached, later loads do not change it |
| X11MessageQueue.ToInt32 | Sources/Display/Platform/X11/display_message_queue_x11.cpp:140 | the conversion to 32-bit `int`: in range, congruent mod 2^32, the identity on values in range |
| X11MessageQueue.RemainingMs | Sources/Display/Platform/X11/display_message_queue_x11.cpp:140 | the remaining time as a 32-bit `int`: in range, congruent mod 2^32 to the timeout minus the elapsed time, and equal to it when that fits |
| X11MessageQueue.SplitTimeout | Sources/Display/Platform/X11/display_message_queue_x11.cpp:142-152 | positive remaining time: seconds and microseconds below 10^6 that add up to it exactly; otherwise zero |
| X11MessageQueue.RunPollsWithoutBlocking | Sources/Display/Platform/X11/display_message_queue_x11.cpp:120-123 | `process(-1)` hands `select` a zero wait until 2^31 - 1 ms have passed |
| X11MessageQueue.LastRound | Sources/Display/Platform/X11/display_message_queue_x11.cpp:161-178 | the round after which `process` returns is the first with nothing ready or with exit signalled |
| X11MessageQueue.Process | Sources/Display/Platform/X11/display_message_queue_x11.cpp:130-181 | one `select` wait per round up to the last, each the split remaining time; returns false iff exit was signalled in a round with ready descriptors, true when nothing was ready; async work runs once per signalled round |
| X11MessageQueue.AsyncRoundsSnoc | Sources/Display/Platform/X11/display_message_queue_x11.cpp:162-168 | one more round adds one async run exactly when async work was signalled in it |
| X11MessageQueue.DisplayMessageQueue.constructor | Sources/Display/Platform/X11/display_message_queue_x11.cpp:42-44 | no display, no library handle, no capture, empty registry |
| X11MessageQueue.DisplayMessageQueue.DlopenOpengl | Sources/Display/Platform/X11/display_message_queue_x11.cpp:61-70 | the first non-null handle `dlopen` returns is kept and returned by every later call; a null result is retried on the next call |
| X11MessageQueue.DisplayMessageQueue.GetDisplay | Sources/Display/Platform/X11/display_message_queue_x11.cpp:72-81 | the display opens on first use and is kept; fails iff none is open afterwards; otherwise returns it |
| X11MessageQueue.DisplayMessageQueue.AddClient | Sources/Display/Platform/X11/display_message_queue_x11.cpp:83-86 | appends the window to the newborn list and changes nothing else |
| X11MessageQueue.DisplayMessageQueue.RemoveClient | Sources/Display/Platform/X11/display_message_queue_x11.cpp:88-91 | appends the window to the dying list and changes nothing else |
| X11MessageQueue.DisplayMessageQueue.SetMouseCapture | Sources/Display/Platform/X11/display_message_queue_x11.cpp:106-118 | the capture becomes `CaptureAfter` of the old capture |
| X11MessageQueue.DisplayMessageQueue.DrainQueue | Sources/Display/Platform/X11/display_message_queue_x11.cpp:194-235 | the dispatches and the remaining queue are those of `Drain` for the current registry and capture |
| X11MessageQueue.DisplayMessageQueue.UpdateRegistry | Sources/Display/Platform/X11/display_message_queue_x11.cpp:237-247 | the registry becomes the old one without the dying windows, followed by the newborn ones in order; both pending lists empty |
| X11MessageQueue.DisplayMessageQueue.ProcessMessage | Sources/Display/Platform/X11/display_message_queue_x11.cpp:188-248 | fails with nothing drained or changed iff no display can be opened; otherwise drains as `Drain` says, folds the registry as `UpdateRegistry` says, and leaves the capture and library handle alone |
| D3DShare.IndexOf | Sources/D3D/d3d_share_list.cpp:46-49 | the position of the node an iterator names |
| D3DShare.EraseKeepsOtherIterators | Sources/D3D/d3d_share_list.cpp:46-49 | erasing one node removes exactly its iterator; all others stay valid and distinct |
| D3DShare.D3DShareList.Resources | Sources/D3D/d3d_share_list.cpp:51 | the resources of the list in order |
| D3DShare.D3DShareList.constructor | Sources/D3D/d3d_share_list.cpp:51 | an empty list |
| D3DShare.D3DShareList.ResourceCreated | Sources/D3D/d3d_share_list.cpp:41-44 | appends the resource at the end, keeps the order of the rest, and returns a new iterator naming the new node |
| D3DShare.D3DShareList.ResourceDestroyed | Sources/D3D/d3d_share_list.cpp:46-49 | requires a valid iterator; removes exactly its node, the others keep their order and stay valid |
| D3DShare.D3DShareList.DeviceDestroyed | Sources/D3D/d3d_share_list.cpp:34-39 | notifies every resource exactly once, in list order, and changes nothing |

## Left out

- All Xlib, GLX, `dlopen` and D3D calls. XInternAtom and XGetWindowProperty are oracles.
- The results of XOpenDisplay, `dlopen`, XCreateColormap, XCreateWindow, XSendEvent, XGetWindowAttributes and the screen-size queries are parameters.
- XMoveWindow, XResizeWindow, XFlush, XSetWMNormalHints and `process_event` are effects the model does not represent. For `process_event`, the model records one `Dispatch` per call.
- `get_name` (x11_atoms.cpp:177-187) only forwards to XGetAtomName and is not modelled.
- Floating point: PPI and pixel ratio are exact `real` values, not 32-bit floats.
- `Size * float` in `create` is not modelled. The scaled size is an input and the model checks the clamp.
- X11WindowState.X11Window.Create: does not model `size_hints->flags`. Operator precedence in the source makes the flags always `PMaxSize`, so no intended flag set is stated.
- X11WindowState.X11Window.Create: leaves out the assertions on XGetWMNormalHints' result (x11_window.cpp:146-151) and the window attributes, event mask and WM metadata passed to X.
- `map_window` (it passes a `Size` as a `Point`) and `unmap_window` (it only throws) are not modelled.
- Members of x11_window.h shown without bodies are not part of this model: focus, fullscreen, minimise, maximise, frame extents and cursors.
- The `select` wake-up machinery, the file descriptors, `exit()` and cross-thread use are not modelled. `Process` models only the timeout arithmetic and the return decision, over a given sequence of rounds.
- X11MessageQueue.RemainingMs: `System::get_time` is assumed to be milliseconds. The unsigned 64-bit subtraction is folded into the 32-bit conversion, which gives the same value mod 2^32.
- Thread-local storage of the registry: one queue object owns one registry.
- X11MessageQueue.DisplayMessageQueue.DrainQueue: keeps the registry lists and the capture window fixed for the whole drain. In the source, `process_event` runs between events and can reach `remove_client`, `add_client` or `set_mouse_capture`, for example when a close handler destroys its window. The loop re-reads the lists and the capture for every event, so later events of a window that died mid-drain are skipped and a capture set mid-drain applies to the following events. The model does not capture this: it dispatches such later events as if the registry were unchanged.
- X11MessageQueue.Client: a registered window is a value of its object identity and its native window id, and the window id is fixed for the client. In the source, `std::remove` and the capture test compare `X11Window *` pointers only, and `is_target` reads the window's live handle at each event. The model assumes the handle does not change while the window is registered.
- X11MessageQueue.Process: requires the rounds to end, with a round in which nothing is ready or exit is signalled. The source loops for as long as `select` keeps reporting ready descriptors without exit, so `process(timeout_ms)` can run past its timeout: once the remaining time is zero or less, `select` polls, and every ready X event or async-work signal starts another round.
- Memory: buffer leaks in `get_property` and the `None` default argument of `modify_net_wm_state` (a C++ type issue) are left out.
- `log_event` output is left out.
- D3DShare.D3DShareList: `resources` is one static list in the source. The model is a single list object, and sharing between callers is not represented.
- X11AtomTable.GetProperty: requires the reply stream to settle. The source would loop forever on a server that always reports more bytes.

## Findings

| source | as written | input that shows it | evidently intended | confidence | as-written member | corrected member |
|---|---|---|---|---|---|---|
| Sources/Display/Platform/X11/x11_window.h:94 | `is_visible` returns `map_state != IsViewable` | a viewable window: reported invisible; an unmapped window: reported visible | visible exactly when `map_state == IsViewable` | not executed; high, the comparison is plainly inverted | X11WindowState.IsVisibleAsWrittenInverted | X11WindowState.IsVisible |
| Sources/Display/Platform/X11/display_message_queue_x11.cpp:238-239 | dying windows are removed with `std::remove` without `erase` | windows `[a, b]`, `b` dying: still `[a, b]`; `a` dying: `[b, b]` | erase-remove: the registry loses exactly the dying windows | not executed; high, the return value of `std::remove` is discarded | X11MessageQueue.RemoveDeadAsWrittenDuplicates | X11MessageQueue.DisplayMessageQueue.UpdateRegistry |
