# Tuner overlay: a Dafny model of the frame loop

Tuner is a small overlay window. It shows the track Spotify is playing, as reported by `playerctl -p spotify`, fetches and shows its cover art, and has a light/dark theme button. This project models the core of `src/main.rs`, which is the body of the frame loop in `main`. Each frame does four things in a fixed order:

1. **Drain the pending-art slot.** The slot is a shared `Option<String>` cell that background downloads write into. If it holds a path, the previous texture is unloaded and the texture built from that file (or none) becomes current. The file is deleted whatever the load gave.
2. **Throttled poll of the player.** The poll runs only when strictly more than `update_interval` has passed since the last one, and it always restarts the clock. Title and artist are replaced together when either one differs. Only inside that branch, and only for a new non-empty URL, is the art URL recorded and exactly one download started.
3. **Draw.** Title and artist are shortened to 30/35 bytes with "...", the album art or a placeholder is shown, and the palette of the current theme is used. Only what is drawn is modelled, not how it is drawn.
4. **Theme toggle.** The theme flips when the left button goes down while the pointer is over the 40×40 button in the bottom-right corner.

Modules:

- `Types`: strings as UTF-8 byte sequences (`seq<bv8>`), `Option`, and texture handles.
- `Display`: the title and artist truncation.
- `Theme`: the two nine-colour palettes, the button hit-test and the toggle.
- `Settings`: `Config` and its defaults.
- `Mailbox`: the pending slot as a class `PendingSlot`, plus `DownloadAlbumArt`'s effect on it. It also has a trace model of downloads and takes, proved to be last-write-wins.
- `Frame`: one frame as a pure function of the state (`Drain`, `Poll`, `Render`, `Step`), and `Run` over a sequence of frames.
- `App`: the class `AppState` with the source's fields. Its methods and the loop `RunFrames` are proved to produce exactly the state and effects that `Frame` specifies.
- `Runs`: properties of whole runs and scenarios that span frames and downloads.

The model takes these as inputs:

- the downloads that finished since the previous frame, in the order they wrote the slot;
- the clock;
- the player's report `(artist, title, art_url)`;
- the outcome of each download (a written file, or a failure);
- the texture the graphics library builds from a file (`None` when it fails);
- the pointer position and the press edge.

Downloads run concurrently with the frame loop in the source. A frame touches the slot only once, at its take, so a download that completes during a frame has the same effect as one that completes just before the next frame. Each frame therefore starts by letting the downloads finished since the previous frame write the slot (`Mailbox.DeliverAll`, `Mailbox.DownloadAlbumArt`), and then takes it.

Two consequences of the code as written:

- **Art check nesting.** The art check sits inside the title-or-artist-changed branch, so a new art URL for an unchanged track is never fetched (`Runs.ArtLagsBehindText`).
- **Failed downloads.** A failed download does not remove a partly written temporary file; only a taken path is deleted.

## Model

| member | source | states |
|---|---|---|
| Display.Truncate | src/main.rs:304-316 | Text at most `limit` bytes long is kept verbatim (both directions). Longer text becomes its first `cutoff` bytes followed by "...". |
| Display.DisplayTitle | src/main.rs:304-308 | The title is shown verbatim iff it is at most 30 bytes. Otherwise it is shown as its first 27 bytes plus "...", exactly 30 bytes. |
| Display.DisplayArtist | src/main.rs:312-316 | The artist is shown verbatim iff it is at most 35 bytes. Otherwise it is shown as its first 32 bytes plus "...", exactly 35 bytes. |
| Display.DisplayIsIdempotent | src/main.rs:304-316 | Shortening already-shown text again changes nothing. |
| Theme.GetThemeColors | src/main.rs:136-162 | Each palette has nine opaque colours. The dark theme (and only it) draws text lighter than its background. |
| Theme.PalettesDiffer | src/main.rs:136-162 | The dark and light palettes differ in each of the nine roles, and every colour is opaque. |
| Theme.TextContrastsWithBackground | src/main.rs:136-162 | Primary and secondary text are brighter than both background stops in dark mode and darker in light mode. |
| Theme.IsHovering | src/main.rs:338-346 | The pointer hovers iff `w-55 <= x <= w-15` and `h-55 <= y <= h-15`, all bounds inclusive. |
| Theme.NextDarkMode | src/main.rs:410-413 | The theme flag changes iff the pointer hovers and a left press happens in the same frame. |
| Theme.ToggleTwiceRestores | src/main.rs:410-413 | Two toggles restore the flag. After one toggle the palette is the other theme's palette. |
| Settings.Default | src/main.rs:19-41 | `Config::default` equals the per-field defaults (dark mode, 600×200, 2.0 s), and its window holds the toggle button. |
| Settings.ButtonInsideWindow | src/main.rs:338-346 | In a window at least 55 pixels in each dimension, every hovering point lies inside the window. |
| Mailbox.PendingSlot.constructor | src/main.rs:186 | The slot starts empty. |
| Mailbox.PendingSlot.Take | src/main.rs:197 | Take returns the slot's content and leaves it empty. On an empty slot it returns `None` and changes nothing. |
| Mailbox.Published | src/main.rs:95-121 | An empty URL leaves the slot as it was. Otherwise the slot holds a path iff the download succeeded, and then exactly that path. |
| Mailbox.DownloadAlbumArt | src/main.rs:95-121 | The slot afterwards is `Published` of the slot before: untouched for an empty URL, `Some(path)` on success, `None` on failure. |
| Mailbox.ReplayIsLastWrite | src/main.rs:115-119 | For any sequence of completed downloads and takes, the slot holds what the most recent write put there. Empty-URL downloads do not count as writes. |
| Mailbox.LastWriteAvoids | src/main.rs:115-119 | A path no download writes is not in the slot after a sequence of writes and takes, unless it was there at the start and nothing overwrote it. |
| Mailbox.DeliverAll | src/main.rs:115-119 | After downloads write the slot one after another, it holds what the replay of their writes gives. |
| Frame.Initial | src/main.rs:180-189 | Before the first frame nothing is cached, there is no texture, the clock is 0, the slot is empty and the theme is the configured one. |
| Frame.Drain | src/main.rs:197-212 | After the drain the slot is empty. An empty slot changes nothing. A taken path unloads the old texture, makes the loaded texture (or none) current, and deletes that path. |
| Frame.Poll | src/main.rs:215-233 | A poll runs iff `now - last_update > update_interval`, strictly. After a poll the clock is `now` and the cached text equals the report. Without a poll nothing changes. A download starts, and the art cache becomes its URL, iff the text changed and the URL is new and non-empty. Texture, slot, theme and config are never touched. |
| Frame.Render | src/main.rs:235-352 | The shown title and artist are `DisplayTitle` and `DisplayArtist` of the cached text, so they fit 30 and 35 bytes. Art is shown iff a texture is current. The palette is the current theme's. The button uses the hover colour iff the pointer hovers. |
| Frame.Step | src/main.rs:194-413 | The finished downloads write the slot, then the frame drains, polls, draws and toggles. The frame deletes exactly what the writes left in the slot, adopts its texture and unloads the old one; with nothing taken the texture is kept. The slot is empty after every frame. A poll replaces the cached title and artist with the report; without one they are kept. A download starts iff the frame polls, the text changed, and the URL is new and non-empty; the art cache then becomes that URL. The frame draws the text it just polled, shows art iff a texture is current after the drain, and uses the palette from before the toggle. The theme flips iff a press lands on the button. |
| Frame.Run | src/main.rs:193-414 | A run records one set of effects per frame, never changes the config, and leaves the slot empty after at least one frame. |
| App.AppState.constructor | src/main.rs:180-189 | The initial state has empty caches, no texture, the clock at 0, a fresh empty slot and the configured theme. |
| App.AppState.AdoptPendingArt | src/main.rs:197-212 | The new state and effects are exactly those of `Frame.Drain`. |
| App.AppState.UpdateSongInfo | src/main.rs:215-233 | The new state, poll flag and started download are exactly those of `Frame.Poll`. |
| App.AppState.HandleThemeToggle | src/main.rs:410-413 | Only `is_dark_mode` changes, following `NextDarkMode`. |
| App.AppState.RunFrame | src/main.rs:194-413 | One iteration, with the finished downloads first writing the shared slot, leaves the state and effects of `Frame.Step`. |
| App.RunFrames | src/main.rs:193-414 | The loop leaves the state and the per-frame effects of `Frame.Run`. |
| Runs.ThrottleSpacing | src/main.rs:215-232 | The first poll is more than the interval after the starting clock. Successive polls are strictly more than the interval apart, whatever the frame times. |
| Runs.PollsFollowThrottle | src/main.rs:215-233 | In any run, the frames that poll are exactly those the throttle picks from the frame times alone. The clock ends at the last poll and the config never changes. |
| Runs.ArtCacheIsLastRequest | src/main.rs:223-229 | After any run, the cached art URL is the URL of the last download started, or the initial one if none was started. |
| Runs.RemovedIsLastWrite | src/main.rs:197-212 | In any run, each frame deletes what the last download finished since the previous frame wrote into the slot, or nothing if none did; the first frame also deletes what the slot held before the run. |
| Runs.ShownArtIsLastAdopted | src/main.rs:197-209 | After any run the current texture is the one built from the last path taken, or the starting texture if no path was taken. |
| Runs.FirstPollWaitsForInterval | src/main.rs:180-215 | From the start-up state, a frame polls iff its time exceeds `update_interval`, so there is no immediate first poll. |
| Runs.FirstTrackStartsDownload | src/main.rs:216-229 | On an empty cache, a report with a title and an art URL caches the text, records the URL and starts that download. |
| Runs.RepeatedReportIsQuiet | src/main.rs:218-232 | Polling the same report again starts no download and changes nothing but the clock. |
| Runs.ArtLagsBehindText | src/main.rs:218-230 | With title and artist unchanged, no download starts and the art cache is kept, even for a new URL. |
| Runs.DownloadIsAdoptedNextFrame | src/main.rs:197-212 | When one download succeeds between two frames, the next frame unloads the old texture, adopts the loaded one and deletes the file. |
| Runs.FailedDownloadChangesNothing | src/main.rs:117-120 | When one download fails between two frames, the next frame keeps the current texture and deletes nothing. |
| Runs.OverwrittenFileIsNotDeleted | src/main.rs:105-119 | When a download for a non-empty URL finishes before the first frame takes the slot, the path it overwrote is taken and deleted by no frame of the run, provided no later download reports that same path (the source's uuid file names make each path unique). |
| Runs.StaleDownloadIsAdopted | src/main.rs:223-229 | When the download for an older URL finishes after the one for the cached URL, the next frame adopts the older file. Unless that frame starts another download, the art cache keeps the newer URL. |

## Left out

- Drawing: the gradient, shadow, border, placeholder icon, sun/moon icon and equalizer bars. These are graphics calls and use floating-point trigonometry. Only what a frame shows is modelled (`Frame.View`).
- `get_song_info`: it runs `playerctl` through `bash` and substitutes "Unknown" / "No media playing" / "" on failure. This is process I/O, so the report is an input of each frame.
- The HTTP GET, the temporary-file write with its uuid name, the tokio runtime and spawning. This is network, file system and concurrency. A download is an input outcome (`Downloaded(path)` or `Failed`) applied to the slot. A partly written file on failure is not tracked.
- The `Arc<Mutex<…>>` locking. The slot is a plain object shared by reference. Completions are applied at the start of a frame; as explained above, that loses nothing the frame loop can observe.
- Which downloads can finish: the completions of a frame are an input and are not tied to the downloads earlier frames started. Every property holds for any completions, so also for those the source produces.
- `load_config`, with its TOML parsing and file read. Only the defaults are modelled. Its path starts with `~`, which `std::fs` does not expand.
- `f32` rounding of the clock, the interval and the pointer position. These are `real`s that are only subtracted and compared.
- `i32` overflow of `window_width - 55` and the `i32` to `f32` conversion of the button bounds. Window sizes are unbounded integers.
- Texture scaling, the log lines (`eprintln!`, `println!`), and the window icon.
- The panic of `&s[..27]` / `&s[..32]` when the cut falls inside a multi-byte UTF-8 character. Truncation works on bytes and never fails.
- Unloading the last texture at shutdown. The loop's end is just the end of the input sequence.
