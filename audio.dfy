/**
 * What both sound controllers share: the manifest of bundled sound files, the
 * app bundle they are looked up in, and an abstract audio player.
 *
 * A player is a record of the state the controllers read and write:
 * whether it is playing, its playback position, its loop count and its
 * target volume. Decoding and sound output belong to the platform and are not
 * modelled; neither is the duration of a volume fade, only the volume it aims at.
 */
module Audio {
  import opened Optional

  /** A bundled resource: a file name and its extension. */
  datatype AudioFile = AudioFile(name: string, ext: string)

  /** The seven sounds each controller preloads, in load order. */
  const Manifest: seq<AudioFile> := [
    AudioFile("fan1", "mp3"), AudioFile("fan2", "mp3"), AudioFile("fan3", "mp3"), AudioFile("fan4", "mp3"),
    AudioFile("click", "m4r"), AudioFile("rain", "m4r"), AudioFile("wobble", "m4r")
  ]

  /** A file present in the app bundle either decodes as audio or it does not. */
  datatype Resource = Decodable | Undecodable

  /** The app bundle: a file that is not a key has no path. */
  type Bundle = map<AudioFile, Resource>

  /** Why a player could not be created for a manifest entry. */
  datatype LoadError = NotFound | DecodeFailed

  /** A target volume: 0 is silent, 1 is full. */
  type Level = v: int | 0 <= v <= 1

  /** The loop count that makes a player repeat forever. */
  const LoopForever: int := -1

  datatype Player = Player(playing: bool, currentTime: nat, loops: int, volume: Level)

  predicate Loads(bundle: Bundle, f: AudioFile) {
    f in bundle && bundle[f] == Decodable
  }

  /**
   * Looks the file up in the bundle and decodes it. A new player is stopped at
   * position 0, loops forever and has the given volume.
   */
  function Open(bundle: Bundle, f: AudioFile, volume: Level): (r: Result<Player, LoadError>)
    ensures r.Ok? <==> Loads(bundle, f)
    ensures r == Err(NotFound) <==> f !in bundle
    ensures r == Err(DecodeFailed) <==> f in bundle && !Loads(bundle, f)
    ensures r.Ok? ==> !r.value.playing && r.value.currentTime == 0
    ensures r.Ok? ==> r.value.loops == LoopForever && r.value.volume == volume
  {
    if f !in bundle then Err(NotFound)
    else if bundle[f] == Undecodable then Err(DecodeFailed)
    else Ok(Player(false, 0, LoopForever, volume))
  }

  /**
   * The registry entries that loading `files` in order adds: each file that
   * opens is stored under its bare name, the others are skipped.
   */
  function Loaded(files: seq<AudioFile>, bundle: Bundle, volume: Level): (r: map<string, Player>)
    ensures r.Keys <= set f | f in files :: f.name
  {
    if files == [] then map[]
    else
      var m := Loaded(files[..|files| - 1], bundle, volume);
      var f := files[|files| - 1];
      match Open(bundle, f, volume)
      case Ok(p) => m[f.name := p]
      case Err(_) => m
  }

  /** Loading one more file extends the registry by that file's player, if it opens. */
  lemma LoadedStep(files: seq<AudioFile>, bundle: Bundle, volume: Level, i: nat)
    requires i < |files|
    ensures Loaded(files[..i + 1], bundle, volume) == match Open(bundle, files[i], volume)
      case Ok(p) => Loaded(files[..i], bundle, volume)[files[i].name := p]
      case Err(_) => Loaded(files[..i], bundle, volume)
  {
    assert files[..i + 1][..i] == files[..i];
  }

  /** Registering an opened player after the entries loaded so far is the same as loading it with them. */
  lemma UnionUpdate(base: map<string, Player>, loaded: map<string, Player>, name: string, r: Result<Player, LoadError>)
    ensures (match r case Ok(p) => (base + loaded)[name := p] case Err(_) => base + loaded)
         == base + (match r case Ok(p) => loaded[name := p] case Err(_) => loaded)
  {
  }

  /** A name is loaded exactly when some entry with that name opens; a failing entry does not stop the rest. */
  lemma {:induction false} LoadedDomain(files: seq<AudioFile>, bundle: Bundle, volume: Level, name: string)
    ensures name in Loaded(files, bundle, volume)
        <==> exists i :: 0 <= i < |files| && files[i].name == name && Loads(bundle, files[i])
  {
    if files != [] {
      var init := files[..|files| - 1];
      LoadedDomain(init, bundle, volume, name);
      if name in Loaded(files, bundle, volume) && name !in Loaded(init, bundle, volume) {
        assert files[|files| - 1].name == name && Loads(bundle, files[|files| - 1]);
      }
      if exists i :: 0 <= i < |files| && files[i].name == name && Loads(bundle, files[i]) {
        var i :| 0 <= i < |files| && files[i].name == name && Loads(bundle, files[i]);
        if i < |files| - 1 {
          assert init[i] == files[i];
        }
      }
    }
  }

  /** Every loaded player is a fresh one: stopped at position 0, looping forever, at the load volume. */
  lemma {:induction false} LoadedFresh(files: seq<AudioFile>, bundle: Bundle, volume: Level, name: string)
    requires name in Loaded(files, bundle, volume)
    ensures Loaded(files, bundle, volume)[name] == Player(false, 0, LoopForever, volume)
  {
    var init := files[..|files| - 1];
    if name in Loaded(init, bundle, volume) {
      LoadedFresh(init, bundle, volume, name);
    }
  }

  /** Loading the manifest registers exactly the names of the manifest files that open. */
  lemma LoadedManifest(bundle: Bundle, volume: Level)
    ensures Loaded(Manifest, bundle, volume).Keys == set f | f in Manifest && Loads(bundle, f) :: f.name
  {
    forall name | true
      ensures name in Loaded(Manifest, bundle, volume) <==> name in (set f | f in Manifest && Loads(bundle, f) :: f.name)
    {
      LoadedDomain(Manifest, bundle, volume, name);
    }
  }

  /** All players in a registry loop forever. */
  predicate AllLoopForever(players: map<string, Player>) {
    forall k :: k in players ==> players[k].loops == LoopForever
  }

  /** Stopping a player and rewinding it: what both controllers do to end a channel. */
  function Halted(p: Player): Player {
    p.(playing := false, currentTime := 0)
  }

  /**
   * Playback time passing: every playing player moves `dt` further. This stands
   * for the platform's audio output and is not an operation of the controllers.
   */
  function Advanced(players: map<string, Player>, dt: nat): (r: map<string, Player>)
    ensures r.Keys == players.Keys
    ensures forall k :: k in r && !players[k].playing ==> r[k] == players[k]
    ensures forall k :: k in r && players[k].playing ==> r[k].currentTime == players[k].currentTime + dt
  {
    map k | k in players :: if players[k].playing then players[k].(currentTime := players[k].currentTime + dt) else players[k]
  }
}
