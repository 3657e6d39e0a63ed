/**
 * The redesigned screen: four fan buttons and three ambient buttons that each
 * toggle their channel, and a mute-all button. Starting a channel aims its
 * volume at 1; stopping one aims its volume at 0 and schedules a deferred stop
 * that halts and rewinds the player once the fade is over. A scheduled stop is
 * never cancelled.
 */
module Modern {
  import opened Optional
  import opened Audio

  /**
   * A button, compared as a whole value: `id` tells apart buttons whose tag and
   * identifier agree. Fan buttons carry their fan number in `tag`, ambient
   * buttons carry their sound name as accessibility identifier. Neither changes
   * after the button is created, so comparing whole values agrees with
   * comparing the objects.
   */
  datatype Button = Button(id: nat, tag: int, accessibilityIdentifier: Option<string>)

  /**
   * The controller's state: the registry, the buttons shown as active, and the
   * deferred stops scheduled and not yet run, by channel name.
   */
  datatype Session = Session(players: map<string, Player>, activeButtons: set<Button>, pending: multiset<string>)

  function DigitChar(d: int): char
    requires 0 <= d <= 9
  {
    ('0' as int + d) as char
  }

  /** The decimal digits of `n`, most significant first, without leading zeros. */
  function NatToDecimal(n: nat): (r: string)
    ensures |r| >= 1 && (|r| > 1 ==> r[0] != '0')
    ensures forall i :: 0 <= i < |r| ==> '0' <= r[i] <= '9'
  {
    if n < 10 then [DigitChar(n)] else NatToDecimal(n / 10) + [DigitChar(n % 10)]
  }

  /** How string interpolation writes an integer: a minus sign before the digits of a negative one. */
  function IntToDecimal(i: int): string {
    if i < 0 then "-" + NatToDecimal(-i) else NatToDecimal(i)
  }

  /** The channel of the fan button with the given tag. */
  function FanSoundName(tag: int): (name: string)
    ensures |name| > 3 && name[..3] == "fan"
    ensures 0 <= tag < 10 ==> |name| == 4
  {
    "fan" + IntToDecimal(tag)
  }

  /** A number is written with one digit exactly when it is below ten. */
  lemma NatToDecimalSingleDigit(n: nat)
    ensures |NatToDecimal(n)| == 1 <==> n < 10
  {
    if n >= 10 {
      assert |NatToDecimal(n)| == |NatToDecimal(n / 10)| + 1;
    }
  }

  lemma {:induction false} NatToDecimalInjective(a: nat, b: nat)
    requires NatToDecimal(a) == NatToDecimal(b)
    ensures a == b
  {
    var s := NatToDecimal(a);
    NatToDecimalSingleDigit(a);
    NatToDecimalSingleDigit(b);
    if a < 10 {
      assert s == [DigitChar(a)] == [DigitChar(b)];
    } else {
      var pa, pb := NatToDecimal(a / 10), NatToDecimal(b / 10);
      assert s == pa + [DigitChar(a % 10)] && s == pb + [DigitChar(b % 10)];
      assert s[|s| - 1] == DigitChar(a % 10) == DigitChar(b % 10);
      assert pa == s[..|s| - 1] == pb;
      NatToDecimalInjective(a / 10, b / 10);
      assert a == (a / 10) * 10 + a % 10;
    }
  }

  /** A written integer starts with a minus sign exactly when it is negative. */
  lemma IntToDecimalSign(i: int)
    ensures |IntToDecimal(i)| >= 1 && (IntToDecimal(i)[0] == '-' <==> i < 0)
  {
    if i >= 0 {
      assert '0' <= NatToDecimal(i)[0] <= '9';
    }
  }

  /** Different integers are written differently. */
  lemma IntToDecimalInjective(i: int, j: int)
    requires IntToDecimal(i) == IntToDecimal(j)
    ensures i == j
  {
    IntToDecimalSign(i);
    IntToDecimalSign(j);
    if i < 0 {
      var d := IntToDecimal(i);
      assert NatToDecimal(-i) == d[1..] == NatToDecimal(-j);
      NatToDecimalInjective(-i, -j);
    } else {
      NatToDecimalInjective(i, j);
    }
  }

  /** Different tags give different sound names, so each fan button drives its own channel. */
  lemma FanSoundNameInjective(t1: int, t2: int)
    requires FanSoundName(t1) == FanSoundName(t2)
    ensures t1 == t2
  {
    var d1, d2 := IntToDecimal(t1), IntToDecimal(t2);
    assert d1 == FanSoundName(t1)[3..];
    assert d2 == FanSoundName(t2)[3..];
    IntToDecimalInjective(t1, t2);
  }

  /** The four fan buttons, tagged 1 to 4, drive the four fan channels of the manifest. */
  lemma FanButtonsDriveFanChannels()
    ensures FanSoundName(1) == Manifest[0].name && FanSoundName(2) == Manifest[1].name
    ensures FanSoundName(3) == Manifest[2].name && FanSoundName(4) == Manifest[3].name
  {
    assert NatToDecimal(1) == "1" && NatToDecimal(2) == "2" && NatToDecimal(3) == "3" && NatToDecimal(4) == "4";
  }

  /** Starts a channel that is not playing and aims it at full volume; otherwise nothing happens. */
  function Play(s: Session, name: string): (r: Session)
    ensures r.activeButtons == s.activeButtons && r.pending == s.pending
    ensures r.players.Keys == s.players.Keys
    ensures forall k :: k in r.players && k != name ==> r.players[k] == s.players[k]
    ensures name !in s.players || s.players[name].playing ==> r == s
    ensures name in s.players && !s.players[name].playing ==>
      r.players[name].playing && r.players[name].volume == 1
      && r.players[name].currentTime == s.players[name].currentTime && r.players[name].loops == s.players[name].loops
  {
    if name !in s.players then s
    else if s.players[name].playing then s
    else s.(players := s.players[name := s.players[name].(playing := true, volume := 1)])
  }

  /**
   * Fades out a playing channel: its volume aims at 0 and one deferred stop is
   * scheduled for it. It goes on playing until that stop runs. Otherwise nothing happens.
   */
  function Stop(s: Session, name: string): (r: Session)
    ensures r.activeButtons == s.activeButtons
    ensures r.players.Keys == s.players.Keys
    ensures forall k :: k in r.players && k != name ==> r.players[k] == s.players[k]
    ensures name !in s.players || !s.players[name].playing ==> r == s
    ensures name in s.players && s.players[name].playing ==>
      r.players[name] == s.players[name].(volume := 0) && r.pending == s.pending + multiset{name}
  {
    if name !in s.players then s
    else if !s.players[name].playing then s
    else s.(players := s.players[name := s.players[name].(volume := 0)], pending := s.pending + multiset{name})
  }

  /** A scheduled deferred stop runs: the player is halted and rewound, and the stop leaves the schedule. */
  function RunDeferredStop(s: Session, name: string): (r: Session)
    requires name in s.pending
    ensures r.activeButtons == s.activeButtons
    ensures r.pending[name] == s.pending[name] - 1 && r.pending + multiset{name} == s.pending
    ensures r.players.Keys == s.players.Keys
    ensures forall k :: k in r.players && k != name ==> r.players[k] == s.players[k]
    ensures name in r.players ==>
      !r.players[name].playing && r.players[name].currentTime == 0
      && r.players[name].volume == s.players[name].volume && r.players[name].loops == s.players[name].loops
  {
    s.(players := if name in s.players then s.players[name := Halted(s.players[name])] else s.players,
       pending := s.pending - multiset{name})
  }

  /** A player after a fade-out was requested: a playing one aims at volume 0, a silent one is left alone. */
  function Faded(p: Player): Player {
    if p.playing then p.(volume := 0) else p
  }

  /** The names of the channels that are playing. */
  function PlayingNames(players: map<string, Player>): set<string> {
    set k | k in players && players[k].playing
  }

  /** Fades out every playing channel, scheduling one deferred stop for each; silent channels are untouched. */
  function StopAll(s: Session): (r: Session)
    ensures r.activeButtons == s.activeButtons
    ensures r.players.Keys == s.players.Keys
    ensures forall k :: k in r.players && !s.players[k].playing ==> r.players[k] == s.players[k]
    ensures forall k :: k in r.players && s.players[k].playing ==> r.players[k] == s.players[k].(volume := 0)
    ensures forall k :: r.pending[k] == s.pending[k] + (if k in s.players && s.players[k].playing then 1 else 0)
  {
    s.(players := map k | k in s.players :: Faded(s.players[k]),
       pending := s.pending + multiset(PlayingNames(s.players)))
  }

  /** `StopAll` is the one state in which each channel is faded out and each playing channel has one more stop scheduled. */
  lemma StopAllDetermined(s: Session, players: map<string, Player>, pending: multiset<string>)
    requires players.Keys == s.players.Keys
    requires forall k :: k in players ==> players[k] == Faded(s.players[k])
    requires forall x :: pending[x] == s.pending[x] + (if x in s.players && s.players[x].playing then 1 else 0)
    ensures StopAll(s) == s.(players := players, pending := pending)
  {
    var r := StopAll(s);
    assert r.players == players;
    assert r.pending == pending;
  }

  /** A tap on an active button stops its channel and deactivates it; on an inactive one it plays and activates it. */
  function Toggle(s: Session, b: Button, name: string): (r: Session)
    ensures b in r.activeButtons <==> b !in s.activeButtons
    ensures r.activeButtons - {b} == s.activeButtons - {b}
    ensures b in s.activeButtons ==> r.players == Stop(s, name).players && r.pending == Stop(s, name).pending
    ensures b !in s.activeButtons ==> r.players == Play(s, name).players && r.pending == s.pending
  {
    if b in s.activeButtons then
      var t := Stop(s, name);
      t.(activeButtons := t.activeButtons - {b})
    else
      var t := Play(s, name);
      t.(activeButtons := t.activeButtons + {b})
  }

  /** A fan tap toggles the button on the channel named after its tag. */
  function FanTap(s: Session, b: Button): (r: Session)
    ensures b in r.activeButtons <==> b !in s.activeButtons
    ensures r.activeButtons - {b} == s.activeButtons - {b}
    ensures b in s.activeButtons ==>
      r.players == Stop(s, FanSoundName(b.tag)).players && r.pending == Stop(s, FanSoundName(b.tag)).pending
    ensures b !in s.activeButtons ==> r.players == Play(s, FanSoundName(b.tag)).players && r.pending == s.pending
  {
    Toggle(s, b, FanSoundName(b.tag))
  }

  /** An ambient tap toggles the button on the channel named by its identifier; a button without one does nothing. */
  function AmbientTap(s: Session, b: Button): (r: Session)
    ensures b.accessibilityIdentifier.None? ==> r == s
    ensures b.accessibilityIdentifier.Some? ==>
      (b in r.activeButtons <==> b !in s.activeButtons) && r.activeButtons - {b} == s.activeButtons - {b}
    ensures b.accessibilityIdentifier.Some? && b in s.activeButtons ==>
      r.players == Stop(s, b.accessibilityIdentifier.value).players
      && r.pending == Stop(s, b.accessibilityIdentifier.value).pending
    ensures b.accessibilityIdentifier.Some? && b !in s.activeButtons ==>
      r.players == Play(s, b.accessibilityIdentifier.value).players && r.pending == s.pending
  {
    match b.accessibilityIdentifier
    case None => s
    case Some(name) => Toggle(s, b, name)
  }

  /** Mute-all: every playing channel fades out and no button is active any more. */
  function MuteAll(s: Session): (r: Session)
    ensures r.activeButtons == {}
    ensures r.players == StopAll(s).players && r.pending == StopAll(s).pending
  {
    StopAll(s).(activeButtons := {})
  }

  /** Tear-down: every playing channel fades out, then the registry is emptied; scheduled stops stay scheduled. */
  function Teardown(s: Session): (r: Session)
    ensures r.players == map[] && r.activeButtons == s.activeButtons
    ensures r.pending == StopAll(s).pending
  {
    StopAll(s).(players := map[])
  }

  /** Two plays are one play. */
  lemma PlayIdempotent(s: Session, name: string)
    ensures Play(Play(s, name), name) == Play(s, name)
  {
  }

  /** Stopping a channel that is not playing changes nothing. */
  lemma StopOnSilentIsNoOp(s: Session, name: string)
    requires name in s.players && !s.players[name].playing
    ensures Stop(s, name) == s
  {
  }

  /**
   * A second stop while the first one's fade is still pending finds the channel
   * playing, so it schedules a second deferred stop.
   */
  lemma StopTwiceSchedulesTwice(s: Session, name: string)
    requires name in s.players && s.players[name].playing
    ensures Stop(Stop(s, name), name).pending[name] == s.pending[name] + 2
    ensures Stop(Stop(s, name), name).players == Stop(s, name).players
  {
  }

  /**
   * Play, stop and the stop's deferred completion leave a channel that was
   * silent halted at position 0 and silent, with nothing left scheduled beyond
   * what was scheduled before.
   */
  lemma PlayStopCompleteHalts(s: Session, name: string)
    requires name in s.players && !s.players[name].playing
    ensures var t := Stop(Play(s, name), name);
      name in t.pending
      && var u := RunDeferredStop(t, name);
      !u.players[name].playing && u.players[name].currentTime == 0 && u.players[name].volume == 0
      && u.pending == s.pending && u.activeButtons == s.activeButtons
  {
    var t := Stop(Play(s, name), name);
    assert t.pending == s.pending + multiset{name};
  }

  /**
   * A channel that played for a while is back at position 0 once its fade-out
   * has run, so the next play starts from the beginning.
   */
  lemma PlayElapseStopRewinds(s: Session, name: string, dt: nat)
    requires name in s.players && !s.players[name].playing && dt > 0
    ensures var t := Play(s, name);
      var u := t.(players := Advanced(t.players, dt));
      var w := Stop(u, name);
      u.players[name].currentTime == s.players[name].currentTime + dt > 0
      && name in w.pending && RunDeferredStop(w, name).players[name].currentTime == 0
  {
    var t := Play(s, name);
    var u := t.(players := Advanced(t.players, dt));
    assert Stop(u, name).pending == u.pending + multiset{name};
  }

  /** Tapping a fan button twice restores the set of active buttons. */
  lemma FanTapTwice(s: Session, b: Button)
    ensures FanTap(FanTap(s, b), b).activeButtons == s.activeButtons
  {
  }

  /** Tapping an ambient button twice restores the set of active buttons. */
  lemma AmbientTapTwice(s: Session, b: Button)
    ensures AmbientTap(AmbientTap(s, b), b).activeButtons == s.activeButtons
  {
  }

  /**
   * A deferred stop is never cancelled. Turning a fan on, off and on again
   * before the fade-out ends leaves the button active, but the third tap finds
   * the channel still playing and does nothing to it, and when the scheduled
   * stop runs the channel falls silent while its button stays active.
   */
  lemma RetapDuringFadeIsLost(s: Session, b: Button)
    requires b !in s.activeButtons
    requires FanSoundName(b.tag) in s.players && !s.players[FanSoundName(b.tag)].playing
    ensures var name := FanSoundName(b.tag);
      var t := FanTap(FanTap(FanTap(s, b), b), b);
      name in t.pending && b in t.activeButtons && t.players[name].playing && t.players[name].volume == 0
      && var u := RunDeferredStop(t, name);
      b in u.activeButtons && !u.players[name].playing
  {
    var name := FanSoundName(b.tag);
    var t1 := FanTap(s, b);
    assert t1.players[name].playing;
    var t2 := FanTap(t1, b);
    assert name in t2.pending && t2.players[name].playing;
    var t3 := FanTap(t2, b);
    assert t3.players == t2.players && t3.pending == t2.pending;
  }

  /** The view controller of the redesigned screen. */
  class ModernViewController {
    var audioPlayers: map<string, Player>
    var activeButtons: set<Button>
    var pending: multiset<string>

    function State(): Session
      reads this
    {
      Session(audioPlayers, activeButtons, pending)
    }

    predicate Valid()
      reads this
    {
      AllLoopForever(audioPlayers)
    }

    constructor ()
      ensures Valid() && State() == Session(map[], {}, multiset{})
    {
      audioPlayers, activeButtons, pending := map[], {}, multiset{};
    }

    /** Creates a looping, silent player for `f` and registers it under its bare name, unless the file is missing or does not decode. */
    method LoadAudioPlayer(bundle: Bundle, f: AudioFile)
      requires Valid()
      modifies this
      ensures Valid()
      ensures audioPlayers == match Open(bundle, f, 0)
        case Ok(p) => old(audioPlayers)[f.name := p]
        case Err(_) => old(audioPlayers)
      ensures activeButtons == old(activeButtons) && pending == old(pending)
    {
      if f !in bundle {
        return;
      }
      if bundle[f] == Undecodable {
        return;
      }
      var player := Player(false, 0, 0, 1);
      player := player.(loops := LoopForever);
      player := player.(volume := 0);
      audioPlayers := audioPlayers[f.name := player];
    }

    /** Loads every manifest entry in turn; one that fails is skipped and the rest still load. */
    method PreloadAudioPlayers(bundle: Bundle)
      requires Valid()
      modifies this
      ensures Valid()
      ensures audioPlayers == old(audioPlayers) + Loaded(Manifest, bundle, 0)
      ensures activeButtons == old(activeButtons) && pending == old(pending)
    {
      ghost var base := audioPlayers;
      for i := 0 to |Manifest|
        invariant Valid()
        invariant audioPlayers == base + Loaded(Manifest[..i], bundle, 0)
        invariant activeButtons == old(activeButtons) && pending == old(pending)
      {
        LoadedStep(Manifest, bundle, 0, i);
        LoadAudioPlayer(bundle, Manifest[i]);
        UnionUpdate(base, Loaded(Manifest[..i], bundle, 0), Manifest[i].name, Open(bundle, Manifest[i], 0));
      }
      assert Manifest[..|Manifest|] == Manifest;
    }

    method PlaySound(name: string)
      requires Valid()
      modifies this
      ensures Valid() && State() == Play(old(State()), name)
    {
      if name !in audioPlayers {
        return;
      }
      var player := audioPlayers[name];
      if !player.playing {
        player := player.(playing := true);
        player := player.(volume := 1);
        audioPlayers := audioPlayers[name := player];
      }
    }

    method StopSound(name: string)
      requires Valid()
      modifies this
      ensures Valid() && State() == Stop(old(State()), name)
    {
      if name !in audioPlayers {
        return;
      }
      var player := audioPlayers[name];
      if player.playing {
        audioPlayers := audioPlayers[name := player.(volume := 0)];
        pending := pending + multiset{name};
      }
    }

    /** The block scheduled by a stop: halts and rewinds the player. */
    method DeferredStop(name: string)
      requires Valid() && name in pending
      modifies this
      ensures Valid() && State() == RunDeferredStop(old(State()), name)
    {
      pending := pending - multiset{name};
      if name in audioPlayers {
        var player := audioPlayers[name];
        player := player.(playing := false);
        player := player.(currentTime := 0);
        audioPlayers := audioPlayers[name := player];
      }
    }

    /** Fades out each playing player in turn, scheduling a deferred stop for each. */
    method StopAllSounds()
      requires Valid()
      modifies this
      ensures Valid() && State() == StopAll(old(State()))
    {
      var players, scheduled := audioPlayers, pending;
      var todo := players.Keys;
      ghost var done: set<string> := {};
      while todo != {}
        invariant todo !! done && todo + done == players.Keys == audioPlayers.Keys
        invariant forall k :: k in todo ==> players[k] == audioPlayers[k]
        invariant forall k :: k in done ==> players[k] == Faded(audioPlayers[k])
        invariant forall x :: scheduled[x] == pending[x] + (if x in done && audioPlayers[x].playing then 1 else 0)
        decreases todo
      {
        var k :| k in todo;
        var player := players[k];
        if player.playing {
          players := players[k := player.(volume := 0)];
          scheduled := scheduled + multiset{k};
        }
        todo, done := todo - {k}, done + {k};
      }
      StopAllDetermined(State(), players, scheduled);
      audioPlayers, pending := players, scheduled;
    }

    method FanButtonTapped(sender: Button)
      requires Valid()
      modifies this
      ensures Valid() && State() == FanTap(old(State()), sender)
    {
      var soundName := "fan" + IntToDecimal(sender.tag);
      if sender in activeButtons {
        StopSound(soundName);
        activeButtons := activeButtons - {sender};
      } else {
        PlaySound(soundName);
        activeButtons := activeButtons + {sender};
      }
    }

    method AmbientButtonTapped(sender: Button)
      requires Valid()
      modifies this
      ensures Valid() && State() == AmbientTap(old(State()), sender)
    {
      if sender.accessibilityIdentifier.None? {
        return;
      }
      var soundName := sender.accessibilityIdentifier.value;
      if sender in activeButtons {
        StopSound(soundName);
        activeButtons := activeButtons - {sender};
      } else {
        PlaySound(soundName);
        activeButtons := activeButtons + {sender};
      }
    }

    method MuteAllTapped()
      requires Valid()
      modifies this
      ensures Valid() && State() == MuteAll(old(State()))
    {
      StopAllSounds();
      activeButtons := {};
    }

    /** Tear-down: fade out everything, then drop every player. */
    method Deinit()
      requires Valid()
      modifies this
      ensures Valid() && State() == Teardown(old(State()))
    {
      StopAllSounds();
      audioPlayers := map[];
    }

  }
}
