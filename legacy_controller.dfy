/**
 * The original screen: eight fan buttons (play and stop for fans 1 to 4), three
 * sound-effect buttons and a mute button over a registry of seven looping players.
 * Playing a fan also starts the sprite animation of that fan's image view;
 * stopping it stops that animation. An unknown channel raises an error notice.
 */
module Legacy {
  import opened Optional
  import opened Audio

  /** The four fans, which are also the numbers of their image views. */
  type FanNumber = n: int | 1 <= n <= 4 witness 1

  /**
   * The controller's state: the registry, the image views whose sprite animation
   * runs, and how many error notices have been raised.
   */
  datatype Screen = Screen(players: map<string, Player>, spinning: set<FanNumber>, alerts: nat)

  /** Plays a channel unless it already plays; an unknown channel raises a notice instead. */
  function Play(s: Screen, name: string, view: Option<FanNumber>): (r: Screen)
    ensures r.players.Keys == s.players.Keys
    ensures forall k :: k in r.players && k != name ==> r.players[k] == s.players[k]
    ensures r.alerts == if name in s.players then s.alerts else s.alerts + 1
    ensures name !in s.players ==> r.players == s.players && r.spinning == s.spinning
    ensures name in s.players && s.players[name].playing ==> r == s
    ensures name in s.players ==> r.players[name].playing
    ensures name in s.players && !s.players[name].playing ==>
      r.players[name] == s.players[name].(playing := true)
      && r.spinning == s.spinning + (if view.Some? then {view.value} else {})
  {
    if name !in s.players then s.(alerts := s.alerts + 1)
    else if s.players[name].playing then s
    else
      s.(players := s.players[name := s.players[name].(playing := true)],
         spinning := if view.Some? then s.spinning + {view.value} else s.spinning)
  }

  /** Stops and rewinds a channel whatever its state; an unknown channel only stops the animation. */
  function Stop(s: Screen, name: string, view: Option<FanNumber>): (r: Screen)
    ensures r.players.Keys == s.players.Keys
    ensures forall k :: k in r.players && k != name ==> r.players[k] == s.players[k]
    ensures name in r.players ==>
      !r.players[name].playing && r.players[name].currentTime == 0
      && r.players[name].loops == s.players[name].loops && r.players[name].volume == s.players[name].volume
    ensures r.spinning == s.spinning - (if view.Some? then {view.value} else {})
    ensures r.alerts == s.alerts
  {
    s.(players := if name in s.players then s.players[name := Halted(s.players[name])] else s.players,
       spinning := if view.Some? then s.spinning - {view.value} else s.spinning)
  }

  /** Stops and rewinds every channel and stops all four animations. */
  function StopAll(s: Screen): (r: Screen)
    ensures r.players.Keys == s.players.Keys
    ensures forall k :: k in r.players ==>
      !r.players[k].playing && r.players[k].currentTime == 0
      && r.players[k].loops == s.players[k].loops && r.players[k].volume == s.players[k].volume
    ensures r.spinning == {} && r.alerts == s.alerts
  {
    Screen(map k | k in s.players :: Halted(s.players[k]), {}, s.alerts)
  }

  /** Tear-down: every channel is stopped, then the registry is emptied. */
  function Teardown(s: Screen): (r: Screen)
    ensures r.players == map[] && r.spinning == {} && r.alerts == s.alerts
  {
    StopAll(s).(players := map[])
  }

  /** The channel name of each fan. */
  function FanChannel(n: FanNumber): (name: string)
    ensures name == Manifest[n - 1].name
  {
    if n == 1 then "fan1" else if n == 2 then "fan2" else if n == 3 then "fan3" else "fan4"
  }

  /** The controller's button actions. */
  datatype Action = PlayFan(n: FanNumber) | StopFan(n: FanNumber) | PlayClick | PlayRain | PlayWobble | Mute

  /** The channel an action addresses; mute addresses all of them. */
  function Target(a: Action): Option<string> {
    match a
    case PlayFan(n) => Some(FanChannel(n))
    case StopFan(n) => Some(FanChannel(n))
    case PlayClick => Some("click")
    case PlayRain => Some("rain")
    case PlayWobble => Some("wobble")
    case Mute => None
  }

  /** What a button does: a play or stop button acts on its own channel, mute on all of them. */
  function Perform(s: Screen, a: Action): (r: Screen)
    ensures r.players.Keys == s.players.Keys
    ensures a.StopFan? ==> a.n !in r.spinning
    ensures a.StopFan? && FanChannel(a.n) in r.players ==>
      !r.players[FanChannel(a.n)].playing && r.players[FanChannel(a.n)].currentTime == 0
    ensures a.PlayFan? && FanChannel(a.n) in s.players ==> r.players[FanChannel(a.n)].playing
    ensures a == Mute ==> r.spinning == {} && forall k :: k in r.players ==> !r.players[k].playing
  {
    match a
    case PlayFan(n) => Play(s, FanChannel(n), Some(n))
    case StopFan(n) => Stop(s, FanChannel(n), Some(n))
    case PlayClick => Play(s, "click", None)
    case PlayRain => Play(s, "rain", None)
    case PlayWobble => Play(s, "wobble", None)
    case Mute => StopAll(s)
  }

  /** The four fan channels are different manifest channels. */
  lemma FanChannelsDistinct(n: FanNumber, m: FanNumber)
    ensures FanChannel(n) == FanChannel(m) <==> n == m
  {
  }

  /** Every action except mute leaves every channel but its own as it was. */
  lemma ActionTouchesOnlyItsChannel(s: Screen, a: Action, k: string)
    requires a != Mute && k in s.players && Some(k) != Target(a)
    ensures k in Perform(s, a).players && Perform(s, a).players[k] == s.players[k]
  {
  }

  /** The click, rain and wobble buttons never stop a channel. */
  lemma SoundEffectsOnlyPlay(s: Screen, a: Action, k: string)
    requires a == PlayClick || a == PlayRain || a == PlayWobble
    requires k in s.players && s.players[k].playing
    ensures k in Perform(s, a).players && Perform(s, a).players[k].playing
  {
  }

  /** On a registered channel a second play changes nothing more than the first. */
  lemma PlayIdempotent(s: Screen, name: string, view: Option<FanNumber>)
    requires name in s.players
    ensures Play(Play(s, name, view), name, view) == Play(s, name, view)
  {
  }

  /** An unknown channel is never played: each attempt raises one more notice and changes nothing else. */
  lemma PlayUnknownOnlyAlerts(s: Screen, name: string, view: Option<FanNumber>)
    requires name !in s.players
    ensures Play(Play(s, name, view), name, view) == s.(alerts := s.alerts + 2)
  {
  }

  /**
   * A channel that played for a while is back at position 0 after a stop,
   * so a later play starts from the beginning.
   */
  lemma PlayElapseStopRewinds(s: Screen, name: string, view: Option<FanNumber>, dt: nat)
    requires name in s.players && !s.players[name].playing && dt > 0
    ensures var t := Play(s, name, view);
      var u := t.(players := Advanced(t.players, dt));
      u.players[name].currentTime == s.players[name].currentTime + dt > 0
      && Stop(u, name, view).players[name].currentTime == 0
      && Play(Stop(u, name, view), name, view).players[name].currentTime == 0
  {
  }

  /** Stopping twice is stopping once. */
  lemma StopIdempotent(s: Screen, name: string, view: Option<FanNumber>)
    ensures Stop(Stop(s, name, view), name, view) == Stop(s, name, view)
  {
  }

  /** After any action the registry still holds the same channels, all looping forever. */
  lemma PerformKeepsRegistry(s: Screen, a: Action)
    requires AllLoopForever(s.players)
    ensures Perform(s, a).players.Keys == s.players.Keys && AllLoopForever(Perform(s, a).players)
  {
  }

  /** A run of button actions keeps the registry's channels, all looping forever. */
  function Run(s: Screen, actions: seq<Action>): Screen
    decreases |actions|
  {
    if actions == [] then s else Run(Perform(s, actions[0]), actions[1..])
  }

  lemma {:induction false} RunKeepsRegistry(s: Screen, actions: seq<Action>)
    requires AllLoopForever(s.players)
    ensures Run(s, actions).players.Keys == s.players.Keys && AllLoopForever(Run(s, actions).players)
    decreases |actions|
  {
    if actions != [] {
      PerformKeepsRegistry(s, actions[0]);
      RunKeepsRegistry(Perform(s, actions[0]), actions[1..]);
    }
  }

  /** A run that ends with mute leaves every channel stopped at position 0 and no fan animating. */
  lemma {:induction false} RunEndingInMuteIsSilent(s: Screen, actions: seq<Action>, k: string)
    requires |actions| > 0 && actions[|actions| - 1] == Mute
    requires k in Run(s, actions).players
    ensures !Run(s, actions).players[k].playing && Run(s, actions).players[k].currentTime == 0
    ensures Run(s, actions).spinning == {}
    decreases |actions|
  {
    if |actions| == 1 {
      assert Run(s, actions) == Run(StopAll(s), []);
    } else {
      assert actions[1..][|actions[1..]| - 1] == Mute;
      RunEndingInMuteIsSilent(Perform(s, actions[0]), actions[1..], k);
    }
  }

  /** The view controller of the original screen. */
  class ViewController {
    var audioPlayers: map<string, Player>
    var spinning: set<FanNumber>
    var alerts: nat

    function State(): Screen
      reads this
    {
      Screen(audioPlayers, spinning, alerts)
    }

    predicate Valid()
      reads this
    {
      AllLoopForever(audioPlayers)
    }

    constructor ()
      ensures Valid() && State() == Screen(map[], {}, 0)
    {
      audioPlayers, spinning, alerts := map[], {}, 0;
    }

    /** Creates a looping player for `f` and registers it under its bare name, unless the file is missing or does not decode. */
    method LoadAudioPlayer(bundle: Bundle, f: AudioFile)
      requires Valid()
      modifies this
      ensures Valid()
      ensures audioPlayers == match Open(bundle, f, 1)
        case Ok(p) => old(audioPlayers)[f.name := p]
        case Err(_) => old(audioPlayers)
      ensures spinning == old(spinning) && alerts == old(alerts)
    {
      if f !in bundle {
        return;
      }
      if bundle[f] == Undecodable {
        return;
      }
      var player := Player(false, 0, 0, 1);
      player := player.(loops := LoopForever);
      audioPlayers := audioPlayers[f.name := player];
    }

    /** Loads every manifest entry in turn; one that fails is skipped and the rest still load. */
    method PreloadAudioPlayers(bundle: Bundle)
      requires Valid()
      modifies this
      ensures Valid()
      ensures audioPlayers == old(audioPlayers) + Loaded(Manifest, bundle, 1)
      ensures spinning == old(spinning) && alerts == old(alerts)
    {
      ghost var base := audioPlayers;
      for i := 0 to |Manifest|
        invariant Valid()
        invariant audioPlayers == base + Loaded(Manifest[..i], bundle, 1)
        invariant spinning == old(spinning) && alerts == old(alerts)
      {
        LoadedStep(Manifest, bundle, 1, i);
        LoadAudioPlayer(bundle, Manifest[i]);
        UnionUpdate(base, Loaded(Manifest[..i], bundle, 1), Manifest[i].name, Open(bundle, Manifest[i], 1));
      }
      assert Manifest[..|Manifest|] == Manifest;
    }

    method PlaySound(name: string, view: Option<FanNumber> := None)
      requires Valid()
      modifies this
      ensures Valid() && State() == Play(old(State()), name, view)
    {
      if name !in audioPlayers {
        alerts := alerts + 1;
        return;
      }
      var player := audioPlayers[name];
      if !player.playing {
        audioPlayers := audioPlayers[name := player.(playing := true)];
        if view.Some? {
          spinning := spinning + {view.value};
        }
      }
    }

    method StopSound(name: string, view: Option<FanNumber> := None)
      requires Valid()
      modifies this
      ensures Valid() && State() == Stop(old(State()), name, view)
    {
      if name in audioPlayers {
        var player := audioPlayers[name];
        player := player.(playing := false);
        player := player.(currentTime := 0);
        audioPlayers := audioPlayers[name := player];
      }
      if view.Some? {
        spinning := spinning - {view.value};
      }
    }

    /** Stops and rewinds each player in turn, then stops the four fan animations. */
    method StopAllSounds()
      requires Valid()
      modifies this
      ensures Valid() && State() == StopAll(old(State()))
    {
      var todo := audioPlayers.Keys;
      while todo != {}
        invariant todo <= audioPlayers.Keys == old(audioPlayers).Keys
        invariant forall k :: k in todo ==> audioPlayers[k] == old(audioPlayers)[k]
        invariant forall k :: k in audioPlayers && k !in todo ==> audioPlayers[k] == Halted(old(audioPlayers)[k])
        invariant alerts == old(alerts)
        decreases todo
      {
        var k :| k in todo;
        audioPlayers := audioPlayers[k := Halted(audioPlayers[k])];
        todo := todo - {k};
      }
      spinning := {};
    }

    /** Tear-down: stop everything, then drop every player. */
    method Deinit()
      requires Valid()
      modifies this
      ensures Valid() && State() == Teardown(old(State()))
    {
      StopAllSounds();
      audioPlayers := map[];
    }


    method PlayFan(n: FanNumber)
      requires Valid()
      modifies this
      ensures Valid() && State() == Perform(old(State()), Action.PlayFan(n))
    {
      PlaySound(FanChannel(n), Some(n));
    }

    method StopFan(n: FanNumber)
      requires Valid()
      modifies this
      ensures Valid() && State() == Perform(old(State()), Action.StopFan(n))
    {
      StopSound(FanChannel(n), Some(n));
    }

    method ClickButtonPlay()
      requires Valid()
      modifies this
      ensures Valid() && State() == Perform(old(State()), PlayClick)
    {
      PlaySound("click");
    }

    method RainButtonPlay()
      requires Valid()
      modifies this
      ensures Valid() && State() == Perform(old(State()), PlayRain)
    {
      PlaySound("rain");
    }

    method WobbleButtonPlay()
      requires Valid()
      modifies this
      ensures Valid() && State() == Perform(old(State()), PlayWobble)
    {
      PlaySound("wobble");
    }

    method MuteButton()
      requires Valid()
      modifies this
      ensures Valid() && State() == Perform(old(State()), Mute)
    {
      StopAllSounds();
    }
  }
}
