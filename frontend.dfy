/** The MQTT frontend of Mopidy: it turns inbound three-letter commands into
    calls on the player and player events into outbound bus messages.

    The player (mixer volume, playback state, tracklist) and the bus are
    modelled in memory: the player calls the frontend makes are logged in
    `calls`, and every `publish` appends one message to `outbox`. */
module Frontend {
  import opened PythonInt

  const VolumeMax: int := 100
  const VolumeMin: int := 0

  /** Mopidy's playback states; their wire form is the constant's string value. */
  datatype PlaybackState = Stopped | Playing | Paused

  function StateName(s: PlaybackState): (name: string)
    ensures name != []
  {
    match s
    case Stopped => "stopped"
    case Playing => "playing"
    case Paused => "paused"
  }

  /** The playback controls the frontend can invoke on the player. */
  datatype PlayerCall = Play | Stop | Pause | Resume | Previous | Next

  datatype Track = Track(uri: string, name: string)

  /** A track together with its tracklist id, as player events carry it. */
  datatype TlTrack = TlTrack(tlid: int, track: Track)

  /** One message handed to the bus: the topic suffix and the payload. */
  datatype Message = Message(topic: string, payload: string)

  /** How a handler ends: it acted, it only logged a warning, or it raised
      `NotImplementedError`. */
  datatype Outcome = Handled | Warned | NotImplemented

  /** The values `plb` recognises. */
  const PlaybackCommands: set<string> := {"play", "stop", "pause", "resume", "toggle", "prev", "next"}

  /** The normalisation the `volume` setter applies before writing: the value
      is capped at `VolumeMax`, then raised to `VolumeMin`. */
  function Clamp(value: int): (r: int)
    ensures VolumeMin <= r <= VolumeMax
    ensures VolumeMin <= value <= VolumeMax ==> r == value
    ensures value < VolumeMin ==> r == VolumeMin
    ensures value > VolumeMax ==> r == VolumeMax
  {
    var capped := if value < VolumeMax then value else VolumeMax;
    if capped > VolumeMin then capped else VolumeMin
  }

  /** A `vol` value made of an operator and the decimal text of `n` is long
      enough for the handler, and its tail parses back to `n`. */
  lemma VolumeValueParses(op: char, n: int)
    ensures |[op] + IntToString(n)| >= 2
    ensures ([op] + IntToString(n))[0] == op
    ensures ParseInt(([op] + IntToString(n))[1..]) == Some(n)
  {
    assert ([op] + IntToString(n))[1..] == IntToString(n);
    ParseIntOfIntToString(n);
  }

  class MqttFrontend {
    /** The formatting collaborators `describe_track` and `describe_stream`. */
    const describeTrack: Track -> string
    const describeStream: string -> string

    var volume: int
    var state: PlaybackState
    var queue: seq<string>
    var calls: seq<PlayerCall>
    var outbox: seq<Message>

    /** The mixer volume stays in range. */
    ghost predicate Valid()
      reads this
    {
      VolumeMin <= volume <= VolumeMax
    }

    constructor (describeTrack: Track -> string, describeStream: string -> string,
                 volume: int, state: PlaybackState, queue: seq<string>)
      requires VolumeMin <= volume <= VolumeMax
      ensures Valid()
      ensures this.describeTrack == describeTrack && this.describeStream == describeStream
      ensures this.volume == volume && this.state == state && this.queue == queue
      ensures calls == [] && outbox == []
    {
      this.describeTrack := describeTrack;
      this.describeStream := describeStream;
      this.volume := volume;
      this.state := state;
      this.queue := queue;
      calls := [];
      outbox := [];
    }

    /** The `volume` getter: the mixer's current volume. */
    method GetVolume() returns (v: int)
      requires Valid()
      ensures v == volume && VolumeMin <= v <= VolumeMax
    {
      v := volume;
    }

    /** The `volume` setter: writes the clamped value to the mixer. */
    method SetVolume(value: int)
      modifies this
      ensures Valid()
      ensures volume == Clamp(value)
      ensures state == old(state) && queue == old(queue)
      ensures calls == old(calls) && outbox == old(outbox)
    {
      var normalized := Clamp(value);
      volume := normalized;
    }

    /** `current_state`: the player's playback state. */
    method CurrentState() returns (s: PlaybackState)
      ensures s == state
    {
      s := state;
    }

    method Invoke(call: PlayerCall)
      modifies this`calls
      ensures calls == old(calls) + [call]
    {
      calls := calls + [call];
    }

    method Publish(topic: string, payload: string)
      modifies this`outbox
      ensures outbox == old(outbox) + [Message(topic, payload)]
    {
      outbox := outbox + [Message(topic, payload)];
    }

    method PlaybackStateChanged(oldState: PlaybackState, newState: PlaybackState)
      modifies this
      ensures outbox == old(outbox) + [Message("sta", StateName(newState))]
      ensures volume == old(volume) && state == old(state)
      ensures queue == old(queue) && calls == old(calls)
    {
      Publish("sta", StateName(newState));
    }

    method TrackPlaybackStarted(tlTrack: TlTrack)
      modifies this
      ensures outbox == old(outbox) + [Message("trk", describeTrack(tlTrack.track))]
      ensures volume == old(volume) && state == old(state)
      ensures queue == old(queue) && calls == old(calls)
    {
      Publish("trk", describeTrack(tlTrack.track));
    }

    method TrackPlaybackEnded(tlTrack: TlTrack, timePosition: int)
      modifies this
      ensures outbox == old(outbox) + [Message("trk", "")]
      ensures volume == old(volume) && state == old(state)
      ensures queue == old(queue) && calls == old(calls)
    {
      Publish("trk", "");
    }

    /** The payload is the decimal text of the volume, which reads back as
        that volume. */
    method VolumeChanged(v: int)
      modifies this
      ensures outbox == old(outbox) + [Message("vol", IntToString(v))]
      ensures ParseInt(outbox[|outbox| - 1].payload) == Some(v)
      ensures volume == old(volume) && state == old(state)
      ensures queue == old(queue) && calls == old(calls)
    {
      var payload := IntToString(v);
      ParseIntOfIntToString(v);
      Publish("vol", payload);
      assert outbox[|outbox| - 1].payload == payload;
    }

    method StreamTitleChanged(title: string)
      modifies this
      ensures outbox == old(outbox) + [Message("trk", describeStream(title))]
      ensures volume == old(volume) && state == old(state)
      ensures queue == old(queue) && calls == old(calls)
    {
      Publish("trk", describeStream(title));
    }

    /** Playback control: each recognised value makes exactly the matching
        player call, `toggle` by the current state; anything else makes none. */
    method OnActionPlb(value: string) returns (outcome: Outcome)
      modifies this
      ensures value == "play" ==> calls == old(calls) + [Play]
      ensures value == "stop" ==> calls == old(calls) + [Stop]
      ensures value == "pause" ==> calls == old(calls) + [Pause]
      ensures value == "resume" ==> calls == old(calls) + [Resume]
      ensures value == "prev" ==> calls == old(calls) + [Previous]
      ensures value == "next" ==> calls == old(calls) + [Next]
      ensures value == "toggle" && old(state) == Playing ==> calls == old(calls) + [Pause]
      ensures value == "toggle" && old(state) == Paused ==> calls == old(calls) + [Resume]
      ensures value == "toggle" && old(state) == Stopped ==> calls == old(calls) + [Play]
      ensures value !in PlaybackCommands ==> calls == old(calls)
      ensures outcome == (if value in PlaybackCommands then Handled else Warned)
      ensures volume == old(volume) && state == old(state)
      ensures queue == old(queue) && outbox == old(outbox)
    {
      if value == "play" {
        Invoke(Play);
        return Handled;
      }
      if value == "stop" {
        Invoke(Stop);
        return Handled;
      }
      if value == "pause" {
        Invoke(Pause);
        return Handled;
      }
      if value == "resume" {
        Invoke(Resume);
        return Handled;
      }

      if value == "toggle" {
        var current := CurrentState();
        if current == Playing {
          Invoke(Pause);
          return Handled;
        }
        if current == Paused {
          Invoke(Resume);
          return Handled;
        }
        if current == Stopped {
          Invoke(Play);
          return Handled;
        }
      }

      if value == "prev" {
        Invoke(Previous);
        return Handled;
      }
      if value == "next" {
        Invoke(Next);
        return Handled;
      }

      return Warned;
    }

    /** Volume control: `=N` sets, `-N` lowers and `+N` raises the volume,
        clamped; a value that is too short, whose tail is not an integer or
        whose operator is unknown changes nothing. */
    method OnActionVol(value: string) returns (outcome: Outcome)
      requires Valid()
      modifies this
      ensures Valid()
      ensures |value| < 2 ==> volume == old(volume) && outcome == Warned
      ensures |value| >= 2 && ParseInt(value[1..]).None? ==> volume == old(volume) && outcome == Warned
      ensures |value| >= 2 && value[0] != '=' && value[0] != '-' && value[0] != '+' ==>
                volume == old(volume) && outcome == Warned
      ensures |value| >= 2 && value[0] == '=' && ParseInt(value[1..]).Some? ==>
                volume == Clamp(ParseInt(value[1..]).value) && outcome == Handled
      ensures |value| >= 2 && value[0] == '-' && ParseInt(value[1..]).Some? ==>
                volume == Clamp(old(volume) - ParseInt(value[1..]).value) && outcome == Handled
      ensures |value| >= 2 && value[0] == '+' && ParseInt(value[1..]).Some? ==>
                volume == Clamp(old(volume) + ParseInt(value[1..]).value) && outcome == Handled
      ensures state == old(state) && queue == old(queue)
      ensures calls == old(calls) && outbox == old(outbox)
    {
      if |value| < 2 {
        return Warned;
      }

      var operator := value[0];
      var amount := ParseInt(value[1..]);
      if amount.None? {
        return Warned;
      }

      if operator == '=' {
        SetVolume(amount.value);
        return Handled;
      }
      if operator == '-' {
        var current := GetVolume();
        SetVolume(current - amount.value);
        return Handled;
      }
      if operator == '+' {
        var current := GetVolume();
        SetVolume(current + amount.value);
        return Handled;
      }

      return Warned;
    }

    /** Append a URI to the end of the queue; an empty value is refused. */
    method OnActionAdd(value: string) returns (outcome: Outcome)
      modifies this
      ensures value == [] ==> queue == old(queue) && outcome == Warned
      ensures value != [] ==> queue == old(queue) + [value] && outcome == Handled
      ensures volume == old(volume) && state == old(state)
      ensures calls == old(calls) && outbox == old(outbox)
    {
      if value == [] {
        return Warned;
      }
      queue := queue + [value];
      return Handled;
    }

    /** Load a playlist: not implemented; a non-empty value clears the queue
        before the handler fails. */
    method OnActionLoa(value: string) returns (outcome: Outcome)
      modifies this
      ensures value == [] ==> queue == old(queue) && outcome == Warned
      ensures value != [] ==> queue == [] && outcome == NotImplemented
      ensures volume == old(volume) && state == old(state)
      ensures calls == old(calls) && outbox == old(outbox)
    {
      if value == [] {
        return Warned;
      }
      queue := [];
      return NotImplemented;
    }

    /** Clear the queue, whatever the value. */
    method OnActionClr(value: string) returns (outcome: Outcome)
      modifies this
      ensures queue == [] && outcome == Handled
      ensures volume == old(volume) && state == old(state)
      ensures calls == old(calls) && outbox == old(outbox)
    {
      queue := [];
      return Handled;
    }

    /** Search the library: not implemented for a non-empty query. */
    method OnActionSrc(value: string) returns (outcome: Outcome)
      ensures outcome == (if value == [] then Warned else NotImplemented)
    {
      if value == [] {
        return Warned;
      }
      return NotImplemented;
    }

    /** Information requests: `state` and `volume` publish the current value,
        `queue` is not implemented, anything else publishes nothing. */
    method OnActionInf(value: string) returns (outcome: Outcome)
      requires Valid()
      modifies this
      ensures value == "state" ==> outbox == old(outbox) + [Message("sta", StateName(state))] && outcome == Handled
      ensures value == "volume" ==> outbox == old(outbox) + [Message("vol", IntToString(volume))] && outcome == Handled
      ensures value == "volume" ==> ParseInt(outbox[|outbox| - 1].payload) == Some(volume)
      ensures value == "queue" ==> outbox == old(outbox) && outcome == NotImplemented
      ensures value != "state" && value != "volume" && value != "queue" ==> outbox == old(outbox) && outcome == Warned
      ensures volume == old(volume) && state == old(state)
      ensures queue == old(queue) && calls == old(calls)
    {
      if value == "state" {
        var current := CurrentState();
        Publish("sta", StateName(current));
        return Handled;
      }

      if value == "volume" {
        var current := GetVolume();
        var payload := IntToString(current);
        assert ParseInt(payload) == Some(current) by {
          ParseIntOfIntToString(current);
        }
        Publish("vol", payload);
        assert outbox[|outbox| - 1].payload == payload;
        return Handled;
      }

      if value == "queue" {
        return NotImplemented;
      }

      return Warned;
    }
  }

  /** `+10` at volume 95 reaches the maximum. */
  method ScenarioVolumeUpClamps() {
    var f := new MqttFrontend((t: Track) => t.name, (title: string) => title, 95, Playing, []);
    var value := ['+'] + IntToString(10);
    VolumeValueParses('+', 10);
    var o := f.OnActionVol(value);
    assert f.volume == 100 && o == Handled;
  }

  /** `=-5` parses to -5, which the setter raises to the minimum. */
  method ScenarioVolumeNegativeAmount() {
    var f := new MqttFrontend((t: Track) => t.name, (title: string) => title, 40, Stopped, []);
    var value := ['='] + IntToString(-5);
    VolumeValueParses('=', -5);
    var o := f.OnActionVol(value);
    assert f.volume == 0 && o == Handled;
  }

  /** `toggle` while playing pauses and publishes nothing; an empty `add`
      leaves the queue alone. */
  method ScenarioToggleAndEmptyAdd() {
    var f := new MqttFrontend((t: Track) => t.name, (title: string) => title, 50, Playing, ["a"]);
    var o := f.OnActionPlb("toggle");
    assert f.calls == [Pause] && f.outbox == [] && o == Handled;
    o := f.OnActionAdd("");
    assert f.queue == ["a"] && o == Warned;
  }
}
