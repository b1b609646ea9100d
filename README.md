# rustourent: UDP announce request, tracker list and Files-tab state, in Dafny

This project models two pieces of a small BitTorrent client written in Rust.

**Tracker work (`src/work/tracker.rs`)** — module `Tracker` in `tracker.dfy`.
- `Announce` is a class whose thirteen fields may be unset (`Option`).
  - `Empty` fills in the protocol defaults and the client's peer id `-BOWxxx-yyyyyyyyyyyy`. The peer id is copied byte by byte into a zeroed 20-byte array by `PeerIdFrom`.
  - The eight setters each fill in one session field.
  - `GetBytesMut` appends every field, big-endian, into the 98-byte "IPv4 announce request" of BEP 15, the BitTorrent UDP Tracker Protocol.
- The BEP 15 table is stated once, as the predicate `IsAnnounceLayout`: one conjunct per row, giving each field's offset, width and big-endian two's-complement bytes. `ReadRequest` reads the fields back from those offsets.
- Proved about the layout:
  - every field round-trips;
  - every 98-byte buffer is the layout of exactly the request read from it;
  - a request has only one layout.
- The integer encoding is in `big_endian.dfy` (module `BigEndian`). It is proved to be a bijection between an n-byte range of integers and n-byte strings.
- `NewTracker` classifies a tracker URL: UDP when the parsed scheme is `udp`, HTTP otherwise.
- `GetTrackers` builds the tracker list: the primary URL first, then the first URL of each backup tier, in tier order.

**Files tab (`src/ui/files.rs`)** — module `Files` in `files.dfy`.
- `FilesState` is a class holding:
  - the window `[topIndex, bottomIndex)` over the root directory's entries;
  - the `current` and `previous` scroll counters;
  - the tab rectangle and the file tree.
- The window arithmetic of `draw_files` is written as functions on values:
  - `FirstDrawWindow`: the first draw sets the window to `[0, 10)`;
  - `ScrollWindow`: move one row up or down if there is room;
  - `DrawWindow`: the two together.
- The class methods are proved to update their fields as those functions say.
- `DrawStep` models one pass of the event loop: `draw_files`, then `previous := current` (`src/ui/ui.rs:86`).
- `Redraw` iterates draw steps. `RedrawStaysSettled` proves what holds over any sequence of draws on a list of between 10 and 65535 entries (the downward limit is the entry count truncated to 16 bits):
  - the top never underflows;
  - the width stays ten;
  - the bottom never passes the end.
- `ButtonClick` negates the download flag of exactly the clicked entry. `ToggleShowsInTable` proves that this changes only that entry's download cell in the drawn table.

Panics in the source become preconditions:
- `unwrap` on an unset announce field: `Complete()`;
- `expect` on a URL that does not parse: `ParseUrl(url).Some?`;
- indexing an empty tier;
- indexing past the file list;
- 16-bit overflow in debug builds: `DrawSafe`, `ClickSafe` and the scroll counters' bounds.

The source's debug-build behaviour (panic on overflow) is the one modelled.

With fewer than ten entries, the source's first draw sets the window to `[0, 10)`. The row loop then indexes past the end of the list and panics. `ShortListOverrun` shows the window after that draw, and `ShortListDrawsUnsafely` proves that `DrawSafe` fails for such lists, and `SettledWindowDrawsSafely` shows that it holds for lists of 10 to 65535 entries.

Where the code's behaviour is followed as written:
- **Tracker count.** The code builds `1 + |tiers|` trackers: the primary URL, then the first URL of every tier. A primary UDP URL with a UDP tier and an HTTP tier gives three trackers: UDP, UDP, HTTP. `ExampleTrackers` states this, from `GetTrackers`, `ExampleUdpUrlClassified` and `ExampleHttpUrlClassified`.
- **Malformed tracker URLs.** A URL that does not parse makes the code panic; no URL is skipped. This is modelled as a precondition.
- **Missing announce fields.** The code panics on the first unset field when building the request. This is modelled as a precondition.

## Model

| member | source | states |
|---|---|---|
| BigEndian.DecodeEncode | src/work/tracker.rs:76-88 | reading back the n-byte big-endian two's complement image of an in-range integer gives that integer |
| BigEndian.EncodeDecode | src/work/tracker.rs:76-88 | every non-empty byte string is the encoding of the integer it decodes to, so the encoding is a bijection onto n-byte strings |
| BigEndian.UnsignedRoundTrip | src/work/tracker.rs:76-88 | the most-significant-first base-256 digits of u read back as u |
| BigEndian.SignInFirstByte | src/work/tracker.rs:76-88 | the first byte written is 0x80 or more exactly when the integer is negative (two's complement, big-endian) |
| Tracker.PeerIdFrom | src/work/tracker.rs:49-53 | copying a slice of at most 20 bytes into a zeroed 20-byte array gives the slice followed by zero bytes |
| Tracker.Announce.Empty | src/work/tracker.rs:48-69 | action 1, event 0, ip 0, num_want -1, the peer id `-BOWxxx-yyyyyyyyyyyy`; connection id, transaction id, info hash, downloaded, left, uploaded, key and port unset |
| Tracker.Announce.GetBytesMut | src/work/tracker.rs:74-90 | for a record with every field set, the result is the BEP 15 layout: 98 bytes, each integer big-endian at its offset, info hash at [16,36) and peer id at [36,56), and every field reads back from it |
| Tracker.ReadRequestOfLayout | src/work/tracker.rs:14-29 | decoding each field, big-endian two's complement, at its BEP 15 offset gives back the request that was laid out |
| Tracker.LayoutOfReadRequest | src/work/tracker.rs:14-29 | every 98-byte buffer is the BEP 15 layout of the request read from it |
| Tracker.LayoutIsUnique | src/work/tracker.rs:14-29 | two buffers that lay out the same request are equal |
| Tracker.DefaultsOnTheWire | src/work/tracker.rs:54-67 | with the defaults of `empty`, bytes 8..11 are 00 00 00 01, bytes 80..87 are zero and bytes 92..95 are FF FF FF FF |
| Tracker.Announce.SetConnectionId | src/work/tracker.rs:92-94 | connection id becomes set to v; every other field unchanged |
| Tracker.Announce.SetTransactionId | src/work/tracker.rs:96-98 | transaction id becomes set to v; every other field unchanged |
| Tracker.Announce.SetInfoHash | src/work/tracker.rs:100-102 | info hash becomes set to v; every other field unchanged |
| Tracker.Announce.SetDownloaded | src/work/tracker.rs:104-106 | downloaded becomes set to v; every other field unchanged |
| Tracker.Announce.SetUploaded | src/work/tracker.rs:108-110 | uploaded becomes set to v; every other field unchanged |
| Tracker.Announce.SetLeft | src/work/tracker.rs:112-114 | left becomes set to v; every other field unchanged |
| Tracker.Announce.SetPort | src/work/tracker.rs:116-118 | port becomes set to v; every other field unchanged |
| Tracker.Announce.SetKey | src/work/tracker.rs:120-122 | key becomes set to v; every other field unchanged |
| Tracker.ParseUrl | src/work/tracker.rs:141 | a string parses exactly when a letter, then scheme characters, then a colon begin it; a parsed URL's scheme is the lower-cased run of scheme characters before the first colon, starting with a letter; the rest is the text after that colon |
| Tracker.NewTracker | src/work/tracker.rs:140-154 | protocol is UDP if and only if the parsed scheme is exactly `udp`, HTTP otherwise; the URL is the parsed one; no socket address |
| Tracker.UdpIffUdpPrefix | src/work/tracker.rs:142-148 | a URL is classified UDP if and only if its text begins with `udp:` in any letter case |
| Tracker.ExampleUdpUrlClassified | src/work/tracker.rs:143-144 | `udp://a.example:80/announce` parses and is a UDP tracker |
| Tracker.ExampleHttpUrlClassified | src/work/tracker.rs:145-146 | `http://b.example/ann` parses and is an HTTP tracker |
| Tracker.GetTrackers | src/work/tracker.rs:158-167 | one tracker more than there are tiers: element 0 from `announce`, element i+1 from the first URL of tier i, in tier order |
| Tracker.TwoTierTrackers | src/work/tracker.rs:158-167 | a primary URL and two single-URL tiers give exactly three trackers, from the primary, the first tier and the second tier, in that order |
| Tracker.ExampleTrackers | src/work/tracker.rs:141-167 | a primary UDP URL with a UDP tier and an HTTP tier gives three trackers classified UDP, UDP, HTTP |
| Files.ScrollWindow | src/ui/files.rs:184-201 | width unchanged; no change when the counters are equal; up by one exactly when `previous > current` and top > 0; down by one exactly when `previous < current` and bottom < limit; top never becomes negative; bottom ≤ limit preserved |
| Files.RedrawStaysSettled | src/ui/files.rs:177-201 | with a downward limit of at least ten (10 to 65535 entries), any sequence of draw steps from the initial window keeps 0 ≤ top, bottom = top + 10 and bottom ≤ number of entries |
| Files.ShortListOverrun | src/ui/files.rs:177-181 | with fewer than ten entries the first draw leaves the window at [0,10), past the end of the list |
| Files.ShortListDrawsUnsafely | src/ui/files.rs:177-181 | with fewer than ten entries, the first draw is not safe: its rows would index past the last entry |
| Files.SettledWindowDrawsSafely | src/ui/files.rs:177-234 | with 10 to 65535 entries, a draw from the initial or a settled window wraps no 16-bit index and reads no row out of range |
| Files.ToggleDownload | src/ui/files.rs:139-142 | the entry's download flag is negated and every other entry is unchanged |
| Files.ToggleTwiceRestores | src/ui/files.rs:139-142 | toggling the same entry twice restores the list |
| Files.ToggleShowsInTable | src/ui/files.rs:216-225 | toggling a shown entry changes only its row's download cell (Yes and No swap); toggling an entry outside the window changes no drawn row |
| Files.FilesState.New | src/ui/files.rs:62-78 | top = bottom = len = 0, both counters 0, empty rectangle, root directory "/" with no inner files, marked for download |
| Files.FilesState.SetTopIndex | src/ui/files.rs:80-82 | top index becomes v; nothing else changes |
| Files.FilesState.SetBottomIndex | src/ui/files.rs:88-90 | bottom index becomes v; nothing else changes |
| Files.FilesState.SetScrollStateCurrent | src/ui/files.rs:96-98 | current counter becomes v; nothing else changes |
| Files.FilesState.SetScrollStatePrevious | src/ui/files.rs:104-106 | previous counter becomes v; nothing else changes |
| Files.FilesState.ScrollGoingDown | src/ui/files.rs:112-114 | current counter increases by one; nothing else changes |
| Files.FilesState.ScrollGoingUp | src/ui/files.rs:116-118 | current counter decreases by one; nothing else changes |
| Files.FilesState.ButtonClick | src/ui/files.rs:122-144 | a click in the download column at or below two lines under the tab's top negates the flag of entry top + (y - (rect.y + 2)) only; any other click changes nothing |
| Files.FilesState.UpdateWindow | src/ui/files.rs:177-201 | the window becomes the draw-window function of the old window and counters; the rectangle is recorded on the first draw only; it needs only the 16-bit overflow conditions, not that the rows exist |
| Files.FilesState.EmitRows | src/ui/files.rs:228-234 | the header row, a blank row, then the rows of entries top..bottom-1 in index order |
| Files.FilesState.DrawFiles | src/ui/files.rs:177-234 | the window update, then the rows of the updated window |
| Files.FilesState.DrawStep | src/ui/ui.rs:82-86 | a draw followed by previous := current: a window still at [0,0) is first set to [0,10); then the window moves at most one row, up when the counter fell and down when it rose since that draw's previous value, and afterwards previous equals current |

## Left out

- Getters (`get_top_index`, `get_bottom_index`, `get_scroll_state_current`, `get_scroll_state_previous`): each is a direct read of its field.
- Tracker.ParseUrl: only the scheme part of URL parsing is modelled. The library also validates host, port and path, so some strings it rejects (`http://` with an empty host) satisfy `NewTracker`'s precondition here. In the other direction, the library strips leading and trailing C0 control characters and spaces and removes ASCII tab and newline anywhere in the input, so some strings it accepts (`ud\tp://a.example/ann`, classified UDP) are excluded by the preconditions of `NewTracker` and `GetTrackers` here.
- Files.InDownloadColumn: the clickable range `width * 0.68 ..= width * 0.76` is computed in 32-bit floating point and truncated; the model uses exact integer arithmetic, floored. f32 rounding is not modelled; for 16-bit widths it leaves the truncated bounds unchanged. `0.68f32` lies slightly above 0.68, so the exact product `width × 0.68f32` never drops below the exact bound, and where the exact bound is an integer the f32 product rounds to it. `0.76f32` lies about 1e-8 below 0.76, less than half the f32 spacing at any bound below 50000, so an integer exact bound is again recovered. A non-integer exact bound is `17 * width / 25` or `19 * width / 25`, a multiple of 1/25, so it is at least 0.04 from the next integer, far more than the f32 error of at most a few thousandths for 16-bit widths, so truncation gives the same integer.
- Files.FilesState.ScrollGoingDown, Files.FilesState.ScrollGoingUp: a counter at the 16-bit maximum (down) or minimum (up) is excluded by the precondition, as a debug build panics there. A release build wraps instead (from 32767 to -32768 going down, from -32768 to 32767 going up), which makes the next draw scroll the opposite way.
- Shared ownership: the file tree is held as `Arc<Mutex<File>>` and a click mutates an inner file through a shared handle. The model holds the tree as a value and reassigns it; locking and aliasing are not modelled.
- Rendering: cells, styles, column widths, `Table` construction and `render_widget` are not modelled. The unused `file1` row and the unused column test inside `createTableRow` are left out too.
- Terminal handling in `src/ui/ui.rs`: raw mode, the alternate screen, mouse capture, polling with a 200 ms timeout and event decoding. Only the `previous := current` step is modelled.
- `src/main.rs`: the worker thread, its join and the shared state. This is application wiring.
- Torrent decoding and the info hash in `parser/src/metadata.rs`. These are calls into bencode and SHA-1 libraries plus file I/O. The info hash enters the announce record as an opaque 20-byte value.
- Sending the request, the connect handshake and tracker responses. None of them is in the modelled code.
- The buffer's initial capacity of 98 and the text of the URL-parse panic message.

