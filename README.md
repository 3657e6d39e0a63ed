# NiteFan sound channels, modelled in Dafny

NiteFan is an iOS app that plays looping fan and ambient sounds. Its logic is a
registry of named sound channels and small state machines around it. This project
models three parts of it:

- **The original screen** (`ViewController.swift`), in `legacy_controller.dfy`.
  Seven players are preloaded from a fixed manifest: `fan1`–`fan4` (`.mp3`) and
  `click`, `rain`, `wobble` (`.m4r`). Play buttons start a channel only if it is
  not already playing. Stop buttons stop a channel and rewind it to 0. The mute
  button does that for every channel. A fan's sprite animation starts and stops
  with its channel. Playing an unknown channel raises an error notice.
- **The redesigned screen** (`ModernViewController.swift`), in `modern_controller.dfy`.
  It uses the same manifest. Players load at volume 0. Playing aims the volume
  at 1. Stopping a playing channel aims the volume at 0 and schedules a deferred
  stop, which halts and rewinds the player when the fade is over. Fan buttons
  (sound `"fan" + tag`) and ambient buttons (sound = accessibility identifier)
  toggle their membership in the set of active buttons. Mute-all fades out every
  playing channel and clears that set.
- **The Core Animation fan** (`FanAnimationView.swift`), in `fan_animation.dfy`.
  An `isAnimating` flag guards start and stop. Starting installs a rotation under
  the layer key `"rotation"`; stopping removes it. Changing the speed restarts
  only a spinning fan.

`audio.dfy` holds what both controllers share: the manifest, the app bundle, the
player record and the definition of what preloading builds. `optional.dfy` holds Option
and Result.

Each controller and the view is a `class` with the source's fields. A `State()`
function turns those fields into a datatype value (`Screen`, `Session`,
`FanView`). Each method's body follows the source step by step. Its `ensures`
says the new state equals a pure transition function of the old state. Those
functions carry contracts that say what the operation means, and the lemmas
relate several operations: idempotence, toggling twice, play-stop-complete, and
the lost re-tap during a fade.

How the platform is abstracted:
- A player is `Player(playing, currentTime, loops, volume)`. `volume` is the
  target of the last fade: 0 or 1. The legacy controller never sets a volume, so
  its players keep the platform default of 1.
- The app bundle is a map from `(name, ext)` to `Decodable | Undecodable`. A file
  that is not a key has no path. Loading fails with `NotFound` or `DecodeFailed`;
  both are skipped.
- A deferred stop (`DispatchQueue.main.asyncAfter`) is an entry in the multiset
  `pending`, keyed by channel name. `DeferredStop` runs one scheduled entry.
  Scheduled stops are never cancelled, exactly as in the code.
- `Audio.Advanced` stands for playback time passing while a player plays. It is
  not code of the app. It makes rewinding to 0 observable:
  `Legacy.PlayElapseStopRewinds` and `Modern.PlayElapseStopRewinds` use it.
- The legacy error alert is the counter `alerts`. The sprite animations of the
  four image views are the set `spinning`.
- A `Button` is compared as a whole value `(id, tag, accessibilityIdentifier)`.
  The `id` tells apart buttons whose tag and identifier agree. A button's tag and
  identifier never change, so this agrees with comparing the button objects.

A stop that has been scheduled is never cancelled. If a fan is tapped on, off
and on again within the fade, the third tap finds the channel still playing and
does nothing to it. The scheduled stop then silences a channel whose button is
still active. `Modern.RetapDuringFadeIsLost` states this.

## Model

| member | source | states |
|---|---|---|
| `Audio.Open` | NiteFan/NiteFan/ViewController.swift:113-128 | a player is created exactly when the file is in the bundle and decodes; a missing file fails with NotFound and an undecodable one with DecodeFailed; a new player is stopped at position 0, loops forever and has the requested volume |
| `Audio.LoadedDomain` | NiteFan/NiteFan/ModernViewController.swift:389-412 | after loading a list of files, a name is registered if and only if some entry with that name opens; failing entries are skipped and later entries still load |
| `Audio.LoadedFresh` | NiteFan/NiteFan/ModernViewController.swift:403-408 | every registered player is stopped at position 0, loops forever (-1) and has the load volume |
| `Audio.LoadedManifest` | NiteFan/NiteFan/ViewController.swift:95-128 | loading the seven-entry manifest registers exactly the bare names of the manifest files that open |
| `Audio.Loaded` | NiteFan/NiteFan/ViewController.swift:95-128 | the registry that preloading builds: it only ever holds names of files in the list |
| `Legacy.Play` | NiteFan/NiteFan/ViewController.swift:130-141 | an unknown channel raises one notice and changes nothing else; a playing channel is left alone; a stopped one starts from its position, and its fan animation starts; no other channel changes |
| `Legacy.Stop` | NiteFan/NiteFan/ViewController.swift:143-147 | the named channel ends stopped at position 0 whatever its state, keeping its loop count and volume; an unknown name changes no player; the fan animation stops; no other channel changes |
| `Legacy.StopAll` | NiteFan/NiteFan/ViewController.swift:149-155 | every channel ends stopped at position 0, the registry keeps its names, and no fan animation runs |
| `Legacy.Teardown` | NiteFan/NiteFan/ViewController.swift:49-53 | after tear-down the registry is empty and no animation runs |
| `Legacy.Perform` | NiteFan/NiteFan/ViewController.swift:158-205 | button dispatch keeps the registry's names; a fan's stop button halts and rewinds that fan's channel and stops its animation; its play button leaves the channel playing; mute stops every channel and animation |
| `Legacy.FanChannel` | NiteFan/NiteFan/ViewController.swift:158-188 | fan N's buttons address the manifest's N-th entry, "fanN" |
| `Legacy.FanChannelsDistinct` | NiteFan/NiteFan/ViewController.swift:158-188 | the four fans address four different channels |
| `Legacy.ActionTouchesOnlyItsChannel` | NiteFan/NiteFan/ViewController.swift:158-201 | every play or stop action leaves every channel other than its own unchanged |
| `Legacy.SoundEffectsOnlyPlay` | NiteFan/NiteFan/ViewController.swift:191-201 | the click, rain and wobble actions never stop a playing channel |
| `Legacy.PlayIdempotent` | NiteFan/NiteFan/ViewController.swift:137-140 | on a registered channel, playing twice equals playing once |
| `Legacy.PlayUnknownOnlyAlerts` | NiteFan/NiteFan/ViewController.swift:131-135 | each play of an unknown channel adds one notice and changes nothing else |
| `Legacy.PlayElapseStopRewinds` | NiteFan/NiteFan/ViewController.swift:143-147 | after playing for a while, a stop rewinds the channel to 0, so the next play starts from the beginning |
| `Legacy.StopIdempotent` | NiteFan/NiteFan/ViewController.swift:143-147 | stopping twice equals stopping once |
| `Legacy.PerformKeepsRegistry` | NiteFan/NiteFan/ViewController.swift:158-205 | no button action adds or removes a channel, and every player still loops forever |
| `Legacy.RunKeepsRegistry` | NiteFan/NiteFan/ViewController.swift:158-205 | the same holds for any sequence of button actions |
| `Legacy.RunEndingInMuteIsSilent` | NiteFan/NiteFan/ViewController.swift:203-205 | after any sequence of actions that ends with mute, every channel is stopped at position 0 and no fan animates |
| `Legacy.ViewController.constructor` | NiteFan/NiteFan/ViewController.swift:18 | the registry starts empty |
| `Legacy.ViewController.LoadAudioPlayer` | NiteFan/NiteFan/ViewController.swift:113-128 | registers the opened player under the bare file name, or changes nothing if the file is missing or does not decode |
| `Legacy.ViewController.PreloadAudioPlayers` | NiteFan/NiteFan/ViewController.swift:95-110 | the loop over the manifest adds exactly the entries of `Loaded(Manifest, bundle, 1)` |
| `Legacy.ViewController.PlaySound` | NiteFan/NiteFan/ViewController.swift:130-141 | the new state is `Play` of the old; the image view defaults to none, as `animateImageView` defaults to `nil` |
| `Legacy.ViewController.StopSound` | NiteFan/NiteFan/ViewController.swift:143-147 | the new state is `Stop` of the old; the image view defaults to none |
| `Legacy.ViewController.StopAllSounds` | NiteFan/NiteFan/ViewController.swift:149-155 | the loop over the players yields `StopAll` of the old state |
| `Legacy.ViewController.Deinit` | NiteFan/NiteFan/ViewController.swift:49-53 | stops every player, then empties the registry |
| `Legacy.ViewController.PlayFan` | NiteFan/NiteFan/ViewController.swift:158-184 | plays channel fanN with image view N |
| `Legacy.ViewController.StopFan` | NiteFan/NiteFan/ViewController.swift:162-188 | stops channel fanN and image view N |
| `Legacy.ViewController.ClickButtonPlay` | NiteFan/NiteFan/ViewController.swift:191-193 | plays channel click, without animation |
| `Legacy.ViewController.RainButtonPlay` | NiteFan/NiteFan/ViewController.swift:195-197 | plays channel rain, without animation |
| `Legacy.ViewController.WobbleButtonPlay` | NiteFan/NiteFan/ViewController.swift:199-201 | plays channel wobble, without animation |
| `Legacy.ViewController.MuteButton` | NiteFan/NiteFan/ViewController.swift:203-205 | stops every channel |
| `Modern.NatToDecimal` | NiteFan/NiteFan/ModernViewController.swift:263 | the written form of a number is one or more decimal digits with no leading zero |
| `Modern.FanSoundName` | NiteFan/NiteFan/ModernViewController.swift:262-263 | a fan's sound name is "fan" followed by its tag; a one-digit tag gives a four-letter name |
| `Modern.NatToDecimalInjective` | NiteFan/NiteFan/ModernViewController.swift:263 | different numbers are written differently |
| `Modern.IntToDecimalSign` | NiteFan/NiteFan/ModernViewController.swift:263 | a written integer starts with a minus sign exactly when it is negative |
| `Modern.IntToDecimalInjective` | NiteFan/NiteFan/ModernViewController.swift:263 | different integers, negative ones included, are interpolated into different strings |
| `Modern.FanSoundNameInjective` | NiteFan/NiteFan/ModernViewController.swift:262-263 | different tags give different sound names, so each fan button drives its own channel |
| `Modern.FanButtonsDriveFanChannels` | NiteFan/NiteFan/ModernViewController.swift:116-119 | the buttons tagged 1 to 4 drive the manifest channels fan1 to fan4 |
| `Modern.Play` | NiteFan/NiteFan/ModernViewController.swift:414-422 | an unknown or playing channel changes nothing; a stopped one starts from its position with target volume 1; buttons, schedule and other channels are unchanged |
| `Modern.Stop` | NiteFan/NiteFan/ModernViewController.swift:424-435 | an unknown or stopped channel changes nothing; a playing one gets target volume 0, keeps playing, and exactly one deferred stop is scheduled for it |
| `Modern.RunDeferredStop` | NiteFan/NiteFan/ModernViewController.swift:430-433 | running one scheduled stop removes one entry from the schedule and leaves the channel stopped at position 0; nothing else changes |
| `Modern.StopAll` | NiteFan/NiteFan/ModernViewController.swift:437-447 | every playing channel gets target volume 0 and exactly one scheduled stop; stopped channels are untouched |
| `Modern.Toggle` | NiteFan/NiteFan/ModernViewController.swift:267-275 | a tap flips the button's membership in the active set and no other button's; an active button's channel is stopped and an inactive one's is played |
| `Modern.FanTap` | NiteFan/NiteFan/ModernViewController.swift:261-276 | a fan tap flips that button's membership only; an active button's channel is stopped (players and schedule as `Stop`) and an inactive one's is played with the schedule unchanged |
| `Modern.AmbientTap` | NiteFan/NiteFan/ModernViewController.swift:278-292 | a button without an identifier changes nothing; otherwise it flips that button's membership only, stopping its identifier's channel when active and playing it when inactive |
| `Modern.MuteAll` | NiteFan/NiteFan/ModernViewController.swift:294-302 | no button stays active, and the players and schedule are those of `StopAll` |
| `Modern.Teardown` | NiteFan/NiteFan/ModernViewController.swift:94-97 | the registry is empty afterwards, and the stops scheduled by the fade-out stay scheduled |
| `Modern.PlayIdempotent` | NiteFan/NiteFan/ModernViewController.swift:417-421 | playing twice equals playing once |
| `Modern.StopOnSilentIsNoOp` | NiteFan/NiteFan/ModernViewController.swift:427 | stopping a stopped channel changes nothing |
| `Modern.StopTwiceSchedulesTwice` | NiteFan/NiteFan/ModernViewController.swift:424-435 | a second stop while the first fade is pending schedules a second deferred stop, with the players as after one stop |
| `Modern.PlayStopCompleteHalts` | NiteFan/NiteFan/ModernViewController.swift:414-435 | play, stop and the stop's completion leave a stopped channel stopped at position 0 and silent, with the schedule as before |
| `Modern.PlayElapseStopRewinds` | NiteFan/NiteFan/ModernViewController.swift:424-435 | after playing for a while, a stop schedules one completion, and when it runs the channel is back at position 0 |
| `Modern.FanTapTwice` | NiteFan/NiteFan/ModernViewController.swift:261-276 | two taps on a fan button restore the set of active buttons |
| `Modern.AmbientTapTwice` | NiteFan/NiteFan/ModernViewController.swift:278-292 | two taps on an ambient button restore the set of active buttons |
| `Modern.RetapDuringFadeIsLost` | NiteFan/NiteFan/ModernViewController.swift:417-433 | on, off, on within a fade: the third tap leaves the channel fading, and the scheduled stop then silences it while its button stays active |
| `Modern.ModernViewController.constructor` | NiteFan/NiteFan/ModernViewController.swift:16-17 | empty registry, no active button, nothing scheduled |
| `Modern.ModernViewController.LoadAudioPlayer` | NiteFan/NiteFan/ModernViewController.swift:400-412 | registers the opened player, silent and looping forever, under the bare file name, or changes nothing if the file is missing or does not decode |
| `Modern.ModernViewController.PreloadAudioPlayers` | NiteFan/NiteFan/ModernViewController.swift:389-398 | the loop over the manifest adds exactly the entries of `Loaded(Manifest, bundle, 0)` |
| `Modern.ModernViewController.PlaySound` | NiteFan/NiteFan/ModernViewController.swift:414-422 | the new state is `Play` of the old |
| `Modern.ModernViewController.StopSound` | NiteFan/NiteFan/ModernViewController.swift:424-435 | the new state is `Stop` of the old |
| `Modern.ModernViewController.DeferredStop` | NiteFan/NiteFan/ModernViewController.swift:430-433 | the new state is `RunDeferredStop` of the old |
| `Modern.ModernViewController.StopAllSounds` | NiteFan/NiteFan/ModernViewController.swift:437-447 | the loop over the players yields `StopAll` of the old state |
| `Modern.ModernViewController.FanButtonTapped` | NiteFan/NiteFan/ModernViewController.swift:261-276 | toggles the button on the channel "fan" + tag |
| `Modern.ModernViewController.AmbientButtonTapped` | NiteFan/NiteFan/ModernViewController.swift:278-292 | the new state is `AmbientTap` of the old |
| `Modern.ModernViewController.MuteAllTapped` | NiteFan/NiteFan/ModernViewController.swift:294-302 | the new state is `MuteAll` of the old |
| `Modern.ModernViewController.Deinit` | NiteFan/NiteFan/ModernViewController.swift:94-97 | fades out every player, then empties the registry |
| `FanAnimation.Start` | NiteFan/NiteFan/FanAnimationView.swift:57-73 | a spinning view is unchanged; an idle one spins, with a new rotation at the requested speed installed under "rotation" and the other layer animations unchanged |
| `FanAnimation.Stop` | NiteFan/NiteFan/FanAnimationView.swift:87-92 | an idle view is unchanged; a spinning one goes idle, "rotation" is removed from the layer, and the stored rotation is kept |
| `FanAnimation.ChangeSpeed` | NiteFan/NiteFan/FanAnimationView.swift:106-111 | an idle view is unchanged; a spinning one keeps spinning with a new rotation at the new speed |
| `FanAnimation.StartStopIdempotent` | NiteFan/NiteFan/FanAnimationView.swift:57-92 | starting twice equals starting once, and stopping twice equals stopping once |
| `FanAnimation.StartThenStop` | NiteFan/NiteFan/FanAnimationView.swift:57-104 | start then stop returns an idle view to idle with its layer as before; only the stored rotation remains |
| `FanAnimation.OperationsKeepCoherent` | NiteFan/NiteFan/FanAnimationView.swift:57-111 | start, stop and speed change keep "the view animates exactly when a rotation is installed, and it is the one it created" |
| `FanAnimation.FanAnimationView.constructor` | NiteFan/NiteFan/FanAnimationView.swift:14-15 | a new view is idle with no rotation |
| `FanAnimation.FanAnimationView.StartAnimating` | NiteFan/NiteFan/FanAnimationView.swift:57-85 | the new state is `Start` of the old at the given speed, 1.0 when none is given, and the view stays coherent |
| `FanAnimation.FanAnimationView.StopAnimating` | NiteFan/NiteFan/FanAnimationView.swift:87-104 | the new state is `Stop` of the old, and the view stays coherent |
| `FanAnimation.FanAnimationView.SetSpeed` | NiteFan/NiteFan/FanAnimationView.swift:106-111 | the new state is `ChangeSpeed` of the old, and the view stays coherent |

## Left out

- Screen layout, colours, gradients, button styling, the star field, and the shadow, scale and spring animations are not modelled. They are UI only, and the stars use floating point and randomness.
- Haptic feedback and audio-session setup are left out. Both are platform calls with no logic. The audio-session failure alert of the legacy screen is not modelled either.
- Error alerts are not modelled beyond the `alerts` counter. Presenting the alert on the main queue is UI.
- Fade durations (0.5 s, 0.3 s) and the rotation duration 2.0 / speed are floating-point timing and are not modelled. Volume is only its target, 0 or 1. The time a deferred stop waits is the moment `DeferredStop` is called. So the model does not fix the order in which the stops scheduled by `stopSound` and by `stopAllSounds` fire.
- Decoding, playback and bundle lookup belong to AVFoundation and Foundation. They are modelled only as the outcome `Bundle` gives for each file.
- Modern.RunDeferredStop: the deferred block holds the player object itself, while the model finds the player by channel name. The two agree as long as the name stays registered. They differ only after tear-down, when the block would still stop the (now unregistered) player and the model does nothing.
- `prepareToPlay` is not modelled. It prepares buffers and changes no state the controllers read.
- `UIColor+NiteFan.swift` and `SceneDelegate.swift` are not part of this model: they hold constant colour tables and app life-cycle plumbing.
