# mopidy-mqtt frontend, modelled in Dafny

Mopidy's MQTT frontend (`MQTTFrontend`) connects a Mopidy music server to an
MQTT bus in both directions:

- **Inbound.** A three-letter command topic with a string value becomes player
  operations. The commands are `plb` (playback control), `vol` (volume),
  `add` and `clr` (queue append and clear), `loa` and `src` (load playlist and
  search, both unimplemented) and `inf` (information requests).
- **Outbound.** Player events become one published message each:
  `sta` for the playback state, `trk` for the current track, `vol` for the
  volume. The frontend also has a `volume` property whose setter clamps the
  value to [0, 100] before writing it to the mixer.

The model has two modules:

- `PythonInt` (`python_int.dfy`) models Python's built-in `int(s)` and
  `str(n)` in base 10. The `vol` handler uses `int` to read the amount, and
  the `vol` messages use `str` to print the volume. `ParseInt` follows
  Python's rules. It strips the whitespace `int()` skips, which is the
  `str.isspace()` set without U+001C to U+001F. It accepts an optional `+`
  or `-`, and allows single underscores between digits. `None`
  stands for the `ValueError` that Python raises.
- `Frontend` (`frontend.dfy`) holds the constants `VolumeMin`/`VolumeMax`,
  the `Clamp` normalisation and the class `MqttFrontend`. Its fields are the
  player and bus state the frontend reads and changes:
  - `volume`: the mixer volume;
  - `state`: the playback state;
  - `queue`: the tracklist, as URIs;
  - `calls`: the log of play/stop/pause/resume/previous/next calls;
  - `outbox`: the messages handed to the bus.

  Each handler and each event is a method. Its `ensures` give the whole new
  state as a function of the old one. Handlers return an `Outcome`:
  `Handled`, `Warned` (the source logs a warning and does nothing) or
  `NotImplemented` (the source raises `NotImplementedError`).
  `describe_track` and `describe_stream` are outside this model. They are
  arrow-typed constants that the constructor receives.

A `vol` amount is meant to be a non-negative number, but the code parses it
with Python's `int()` (mopidy_mqtt/frontend.py:138) and so accepts more. The
model follows the code, so these values are all accepted:

- `=-5`: sets the volume to `Clamp(-5)`, which is 0;
- `--5`: raises the volume by 5;
- `+ 5`: surrounding whitespace is allowed;
- `+1_0`: a single underscore between digits is allowed.

## Model

| member | source | states |
|---|---|---|
| Frontend.Clamp | mopidy_mqtt/frontend.py:56-61 | the normalised volume lies in [0, 100]; a value already in range is kept, one below goes to 0, one above to 100 |
| Frontend.MqttFrontend.SetVolume | mopidy_mqtt/frontend.py:56-61 | after the write, the mixer volume is exactly `Clamp(value)`, so it is in [0, 100]; nothing else changes |
| Frontend.MqttFrontend.GetVolume | mopidy_mqtt/frontend.py:52-54 | returns the mixer's volume, which lies in [0, 100] |
| Frontend.MqttFrontend.CurrentState | mopidy_mqtt/frontend.py:63-65 | returns the player's playback state |
| Frontend.MqttFrontend.constructor | mopidy_mqtt/frontend.py:20-27 | the frontend starts from the player's volume, state and queue, with no calls made and nothing published |
| Frontend.StateName | mopidy_mqtt/frontend.py:73 | the payload of a state message is the state's string value (`stopped`, `playing`, `paused`), never empty |
| Frontend.MqttFrontend.PlaybackStateChanged | mopidy_mqtt/frontend.py:67-73 | appends exactly one message, `('sta', new state)`; player state, queue and calls are unchanged |
| Frontend.MqttFrontend.TrackPlaybackStarted | mopidy_mqtt/frontend.py:75-80 | appends exactly one message, `('trk', describe_track(track))`; nothing else changes |
| Frontend.MqttFrontend.TrackPlaybackEnded | mopidy_mqtt/frontend.py:82-89 | appends exactly one message, `('trk', '')`; nothing else changes |
| Frontend.MqttFrontend.VolumeChanged | mopidy_mqtt/frontend.py:91-96 | appends exactly one message, `('vol', str(v))`, whose payload parses back to `v`; nothing else changes |
| Frontend.MqttFrontend.StreamTitleChanged | mopidy_mqtt/frontend.py:98-103 | appends exactly one message, `('trk', describe_stream(title))`; nothing else changes |
| Frontend.MqttFrontend.OnActionPlb | mopidy_mqtt/frontend.py:105-129 | play, stop, pause, resume, prev and next each log exactly the matching player call. `toggle` logs pause when playing, resume when paused and play when stopped. Any other value logs no call and ends in a warning. Volume, state, queue and outbox are unchanged |
| Frontend.MqttFrontend.OnActionVol | mopidy_mqtt/frontend.py:131-155 | for an `=`, `-` or `+` operator followed by an integer N, with old volume V, the new volume is `Clamp(N)`, `Clamp(V-N)` or `Clamp(V+N)`. A value shorter than 2 characters, a tail that is not an integer, or another operator leaves the volume unchanged and ends in a warning. State, queue, calls and outbox never change; the volume stays in [0, 100] |
| Frontend.VolumeValueParses | mopidy_mqtt/frontend.py:133-138 | an operator followed by the decimal text of N passes the length check, and its tail parses to N |
| Frontend.MqttFrontend.OnActionAdd | mopidy_mqtt/frontend.py:157-163 | an empty value leaves the queue unchanged and ends in a warning; a non-empty URI is appended at the end of the queue; nothing else changes |
| Frontend.MqttFrontend.OnActionLoa | mopidy_mqtt/frontend.py:165-173 | an empty value changes nothing and ends in a warning; a non-empty value empties the queue and then ends as not implemented |
| Frontend.MqttFrontend.OnActionClr | mopidy_mqtt/frontend.py:175-177 | the queue is empty afterwards, whatever the value; nothing else changes |
| Frontend.MqttFrontend.OnActionSrc | mopidy_mqtt/frontend.py:179-184 | an empty query ends in a warning, any other ends as not implemented |
| Frontend.MqttFrontend.OnActionInf | mopidy_mqtt/frontend.py:186-199 | `state` publishes `('sta', current state)`; `volume` publishes `('vol', str(volume))`, whose payload parses back to the volume; `queue` publishes nothing and ends as not implemented; anything else publishes nothing and ends in a warning. Player state is unchanged |
| PythonInt.IntToString | mopidy_mqtt/frontend.py:96 | `str(n)` is non-empty, starts with `-` exactly when n is negative, and is otherwise decimal digits with no leading zero |
| PythonInt.NatToString | mopidy_mqtt/frontend.py:192 | `str(n)` of a non-negative n is decimal digits, `"0"` only for 0, with no leading zero |
| PythonInt.ParseIntAccepts | mopidy_mqtt/frontend.py:138 | `ParseInt`, the model of `int(value[1:])`, strips whitespace, then reads an optional sign and digit groups; it succeeds exactly when the stripped text is such a literal (`None` stands for `ValueError`); a negative result needs a leading `-`, and a leading `-` never gives a positive result |
| PythonInt.ParseIntOfIntToString | mopidy_mqtt/frontend.py:138 | `int(str(n)) == n` for every integer n |
| PythonInt.ParseIntSigned | mopidy_mqtt/frontend.py:138 | `int` accepts a leading `+` or `-` before the digits, with the matching sign |
| PythonInt.ParseIntIgnoresSpace | mopidy_mqtt/frontend.py:138 | whitespace that `int()` skips, before and after the argument, never changes the result |
| PythonInt.ParseIntUnderscore | mopidy_mqtt/frontend.py:138 | a single underscore between two runs of digits does not change the number |
| PythonInt.ParseIntRejectsForeignChar | mopidy_mqtt/frontend.py:137-140 | a character other than whitespace, a digit, a sign or an underscore, anywhere in the argument, makes `int` fail |
| PythonInt.ParseIntBlank | mopidy_mqtt/frontend.py:137-140 | an empty or all-whitespace argument makes `int` fail |

## Left out

- Lifecycle hooks are not modelled: `on_start`, `on_stop` and `on_failure` (mopidy_mqtt/frontend.py:29-50). They only start or stop the transport and log. They depend on the actor runtime, so the idea of silence after a stop is not modelled either.
- The MQTT transport `Comms` and the mapping from topic to `on_action_<code>` live in `mopidy_mqtt/mqtt.py`, which is not part of this model. Publishing is modelled as appending to `outbox`, and each handler is called directly.
- `describe_track` and `describe_stream` live in `mopidy_mqtt/utils.py`, which is not part of this model. They are opaque functions that the constructor receives.
- The `.get()` calls on the actor proxies are not modelled. They wait for a remote call to finish; the model reads its fields directly.
- Failures of the player or the bus are not modelled. The model treats every call as succeeding.
- Logging is not modelled. A warning shows up only as the `Warned` outcome.
- No method of the model changes `state` after construction. The frontend never writes the playback state: a player call changes only the `calls` log, and `PlaybackStateChanged` only publishes. In Mopidy the player sets its state before it fires that event. In the model, whoever stands for the player must assign `state` itself, or `inf state` keeps reporting the old state.
- `GetVolume`, `SetVolume`: the mixer volume is assumed to stay in [0, 100], which Mopidy's mixer enforces. A mixer with no volume (`get_volume()` returns `None`) is not modelled.
- `OnActionPlb`: Python reads `current_state` again for each `toggle` comparison. The model reads it once, because no other actor can change it between calls here.
- `OnActionAdd`: `tracklist.add(uri=...)` looks the URI up in the library and may add zero tracks or several. The model appends exactly the URI.
- `ParseInt` treats non-ASCII decimal digits (such as Arabic-Indic digits) as invalid, but Python's `int()` accepts them.
- `ParseInt` does not model the limit on digit count that newer Python versions apply in `int()`.
- `setup.py` holds packaging metadata and file I/O, so it is not part of the model.
