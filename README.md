# A Dafny model of the driving toy's game state

`main.js` is a three.js / cannon-es driving game. A car drives over a
bounded ground plane under arrow-key control. It trails exhaust smoke and
dust, and it can switch on headlights, rain, snow and fog. A day/night
clock colours the sky, and a heads-up display shows the time and the
speed. This project models the state logic under the rendering and proves
properties of it:

- **Vehicle** (`vehicle.dfy`): the car class. It holds the pose, the speed
  and the yaw rate of the game's `speed`, `rotationSpeed`, `car.position`
  and `car.rotation.y`, plus the four wheel spin angles. The per-frame move
  rejects candidate positions outside the 180 by 180 square, then turns the
  car. The collision listener halves the speed.
- **Lighting** (`headlights.dfy`): the headlight list, with two bulb meshes
  and two spotlights, and the `areLightsOn` toggle.
- **Input** (`input.dfy`): the key-down and key-up listeners. Their audio
  side effects are returned as a request value.
- **Particles** (`particles.dfy`): the particle class, and the per-frame
  pass that spawns exhaust and dust and then updates every particle and
  keeps the living ones in order.
- **Atmosphere** (`weather.dfy`): raindrops and snowflakes with their
  reset/update rules, the fixed pools, the per-frame weather pass and the
  three toggle buttons.
- **DayNight and Text** (`daynight.dfy`, `text.dfy`): the clock and its
  wrap, the day/night sky split, the ambient floor, and the "Time: HH:MM"
  text. The text is built from `toString` and `padStart`, and the model
  proves it reads back as the hour and the minute.
- **Hud** (`hud.dfy`): the speedometer reading and its text.
- **Session** (`session.dfy`): any sequence of key, collision and frame
  events, applied to the car state. Whatever the events, the car stays in
  the square and the speedometer never shows more than 50 km/h.
- **Game** (`game.dfy`): the order of one animation frame. The frame
  first steps the physics world (main.js:501), and a contact reported
  during that step halves the speed: in the model that is a
  `Vehicle.Car.Collide` call made before `Game.World.Advance`. Then the car
  moves with the possibly halved speed, the weather runs, particles spawn
  at the car's new position, the clock advances, and both texts are
  refreshed.

Values are Dafny `real`s. `Math.sin`, `Math.cos` and every `Math.random()`
draw are parameters. A draw is required to lie in [0, 1), the range
`Math.random` returns.

Two behaviours of the code are easy to misread, and the model follows the
code in both:

- At 24 the clock is set to exactly 0. It is not reduced modulo 24, so
  overshoot is dropped (`DayNight.WrapDropsOvershoot`).
- Toggling rain or snow only shows or hides the pool. It does not reset
  the drops.

## Model

| member | source | states |
|---|---|---|
| Common.Plus | main.js:51 | `Vector3.add` adds component-wise. |
| Common.Abs | main.js:489 | `Math.abs` is non-negative and is the value or its negation. |
| Vehicle.Translated | main.js:504-528 | A moving car takes the candidate position when it lies in [-90, 90]²; otherwise position is kept and speed becomes exactly 0. A car at rest is unchanged. The square is preserved. |
| Vehicle.Rotated | main.js:530-533 | Yaw grows by the yaw rate, with no boundary; nothing else changes. |
| Vehicle.Stepped | main.js:504-533 | A frame's move keeps a sound car (in the square, speed at most 0.1, key-given yaw rate) sound. |
| Vehicle.Collided | main.js:278-282 | A collision halves the speed: same sign, strictly smaller magnitude; 0 stays 0; nothing else changes. |
| Vehicle.Car.constructor | main.js:8-9 | The car starts at rest at the origin with wheels unturned. |
| Vehicle.Car.Drive | main.js:504-533 | The car's new state is `Stepped` of the old one. On an accepted move every wheel turns by speed × 5; otherwise the wheels are untouched. |
| Vehicle.Car.Translate | main.js:504-528 | The movement block alone: new state is `Translated` of the old one, with the wheel spin on an accepted move. |
| Vehicle.Car.SpinWheels | main.js:521-523 | Every wheel angle grows by the same spin. |
| Vehicle.Car.Collide | main.js:278-282 | The car's new state is `Collided` of the old one. |
| Lighting.Lit | main.js:480-484 | A spotlight gets intensity 2 or 0, a bulb emissive 0xffffcc or 0, by the flag; the kind is kept. |
| Lighting.LitAll | main.js:479-485 | Every entry of the list is lit for the flag, and the list keeps its length and order. |
| Lighting.LitAllShowsFlag | main.js:477-486 | After the toggle every light shows the flag; only the last flag applied matters. |
| Lighting.ToggleTwiceRestores | main.js:477-486 | Toggling twice gives back every light value. |
| Lighting.LitAllKeepsShown | main.js:479-485 | Applying the flag a list already shows changes nothing. |
| Lighting.Headlights.constructor | main.js:217-246 | Two dark bulbs, then a spotlight of intensity 0 for each; lights off. |
| Lighting.Headlights.Toggle | main.js:477-486 | Flips `areLightsOn` and sets every light to the new flag's value. |
| Input.Pressed | main.js:432-447 | Up/down set speed to 0.1/-0.1, left/right set the yaw rate to 0.02/-0.02, every other key leaves both; no key moves the car. |
| Input.Released | main.js:463-475 | Releasing up or down zeroes speed only, left or right the yaw rate only; other keys change nothing. |
| Input.PressAudio | main.js:432-460 | The engine starts exactly on a throttle key, toggles exactly on space, the horn restarts exactly on h/H; a key-down never pauses. |
| Input.ReleaseAudio | main.js:463-469 | Only throttle key-ups pause the engine. |
| Input.ReleaseUndoesPress | main.js:432-475 | Pressing then releasing an arrow restores the state with that control zeroed. |
| Input.ReleaseIgnoresWhichArrow | main.js:465-473 | Releasing either throttle key stops the car, even with the opposite key still down; likewise for steering. |
| Input.OnKeyDown | main.js:432-461 | The car's controls become `Pressed`; L toggles the headlights exactly when pressed; the audio request is `PressAudio`. |
| Input.OnKeyUp | main.js:463-475 | The car's controls become `Released`; the audio request is `ReleaseAudio`. |
| Particles.LaunchVelocity | main.js:42-46 | A new particle drifts by less than 0.05 either way and rises by less than 0.2 per frame. |
| Particles.DustOrigin | main.js:373-379 | Dust appears within 1 unit of the car in x and z, 0.1 above it. |
| Particles.ExhaustOrigin | main.js:359-365 | Exhaust appears 0.5 above the car and directly behind it: the offset is parallel to the heading (sin yaw, cos yaw) and points against it, with length 2 for a unit heading. |
| Particles.SurvivesUpdate | main.js:52-54 | A particle survives an update exactly when its life minus 0.02 is positive; `Particle.Update` returns this for the old life. |
| Particles.Particle.constructor | main.js:33-48 | A particle starts at its position with life 1, opacity 0.8, grey, and the launch velocity. |
| Particles.Particle.Update | main.js:50-55 | The particle drifts by its velocity, loses 0.02 life, shows its life as opacity, and reports alive iff the new life is positive. |
| Particles.Kept | main.js:389-395 | The filter keeps at most the particles it was given. |
| Particles.KeptIsSurvivorsInOrder | main.js:389-395 | The filter keeps exactly the particles whose life survives, in their original order. |
| Particles.KeptDistinct | main.js:389-395 | Filtering a list without repeats gives a list without repeats. |
| Particles.KeptAppend | main.js:389-395 | Filtering a concatenation filters each part. |
| Particles.KeptAllSurvive | main.js:389-395 | A list whose every particle survives is kept whole. |
| Particles.NewbornsSurvive | main.js:357-395 | Particles pushed this frame at full life all pass the filter, after the survivors of the older list. |
| Particles.SpawnCount | main.js:357-386 | A frame spawns nothing while the car stands, and one or two particles while it moves. It spawns two exactly when the car moves and the dust draw exceeds 0.7. |
| Particles.Emit | main.js:357-386 | The exhaust particle behind the car comes first; when the roll exceeds 0.7, a brown dust particle follows. Both are at full life, distinct and new. |
| Particles.UpdateAll | main.js:389-395 | Every particle is updated once, and the result is `Kept` of the list with the lives it had before. |
| Particles.ParticleSystem.constructor | main.js:12 | The particle list starts empty. |
| Particles.ParticleSystem.Prune | main.js:389-395 | The list becomes its survivors in order, each particle aged once, still without repeats. |
| Particles.ParticleSystem.Spawn | main.js:357-386 | The emitted particles are appended; the survivors of the new list are the old survivors followed by them. |
| Particles.ParticleSystem.Update | main.js:355-396 | The new list is the old survivors in order, then this frame's particles, each aged once from its spawn point, the exhaust first. |
| Particles.ParticleSystem.PruneWithNewborns | main.js:389-395 | Pruning right after spawning leaves the just-spawned particles freshly aged. |
| Atmosphere.SpawnCoordinate | main.js:72-76 | A reset coordinate lies in [-50, 50). |
| Atmosphere.RainSpawn | main.js:71-78 | A reset raindrop is at height 50 over the spawn square, falling 2 to 4 per frame. |
| Atmosphere.RainStep | main.js:80-85 | A drop falls by its velocity and is reset once below 0; a valid drop stays in [0, 50]. |
| Atmosphere.Raindrop.constructor | main.js:60-69 | A new drop is reset. |
| Atmosphere.Raindrop.Reset | main.js:71-78 | The drop's state becomes `RainSpawn` of the draw. |
| Atmosphere.Raindrop.Update | main.js:80-85 | The drop's state becomes `RainStep` of the old state. |
| Atmosphere.SnowSpawn | main.js:101-111 | A reset snowflake is at height 50 over the spawn square, falling 0.5 to 1 and drifting under 0.1 per frame. |
| Atmosphere.SnowStep | main.js:113-119 | A flake falls and drifts, and is reset once below 0; a valid flake stays valid. |
| Atmosphere.SnowStaysNearSquare | main.js:101-119 | Drift never takes a flake more than 10 units outside the spawn square. |
| Atmosphere.Snowflake.constructor | main.js:90-99 | A new flake is reset. |
| Atmosphere.Snowflake.Reset | main.js:101-111 | The flake's state becomes `SnowSpawn` of the draw. |
| Atmosphere.Snowflake.Update | main.js:113-119 | The flake's state becomes `SnowStep` of the old state. |
| Atmosphere.Weather.constructor | main.js:122-138 | 1000 drops and 500 flakes are each reset and hidden; all effects start off. |
| Atmosphere.Weather.Rain | main.js:142-147 | Every drop is shown and stepped with its draw. |
| Atmosphere.Weather.Snow | main.js:150-155 | Every flake is shown and stepped with its draw. |
| Atmosphere.Weather.Update | main.js:140-163 | A pool is stepped only while its effect is on, and is otherwise unchanged; fog density is 0.03 with fog, else 0.01. |
| Atmosphere.Weather.ToggleRain | main.js:637-640 | Flips the rain flag and shows or hides every drop without moving it. |
| Atmosphere.Weather.ToggleSnow | main.js:642-645 | Flips the snow flag and shows or hides every flake without moving it. |
| Atmosphere.Weather.ToggleFog | main.js:647-649 | Flips the fog flag. |
| Atmosphere.FogDensity | main.js:158-162 | Fog density is 0.03 exactly when fog is on, and 0.01 otherwise, so it is always positive. |
| Text.Decimal | main.js:423 | The decimal text of a number is non-empty digits with no leading zero, one digit below 10, two from 10 to 99. |
| Text.IntToString | main.js:423 | `toString` of an integer reads back as the integer: a non-negative one gives digits whose value is the number; a negative one gives '-' followed by digits whose value is its magnitude. |
| Text.DecimalRoundTrip | main.js:420-423 | Reading a number's decimal text gives the number back. |
| Text.PadStart | main.js:423 | `padStart` gives the width when the string is shorter, and leaves a longer string's length alone. |
| Text.PadStartShape | main.js:423 | The padded text keeps the string as its suffix and holds only fill characters before it. |
| Text.ZeroPaddedRoundTrip | main.js:423 | Zero padding keeps a digit string's value. |
| Text.TwoDigits | main.js:420-423 | A number below 100 pads to two digits that read back as it. |
| DayNight.Advanced | main.js:399-400 | The clock stays in [0, 24): it moves on by 0.01, or is set to exactly 0 on reaching 24. |
| DayNight.DayLasts2400Frames | main.js:399-400 | From midnight the clock reads k/100 after k < 2400 frames and is back at 0 after 2400. |
| DayNight.WrapDropsOvershoot | main.js:399-400 | From 23.995 the clock goes to 0, not to 0.005. |
| DayNight.SkyColor | main.js:403-411 | Night is the fixed dark blue. By day, with a sine in [0, 1], each channel lies between its base value and base plus its gain. |
| DayNight.SkyRisesWithSine | main.js:404-407 | By day every channel of the sky is monotone in the sine: a larger sine never gives a darker channel. |
| DayNight.Ambient | main.js:416 | Ambient intensity is the larger of 0.2 and the sine. |
| DayNight.Hours | main.js:420 | The hour is the floor of the clock, in 0..23 within the day. |
| DayNight.Minutes | main.js:421 | The minute is in 0..59, and the clock lies in that minute of the hour. |
| DayNight.Trunc | main.js:421 | `Math.trunc` rounds toward zero: for t ≥ 0 it is the largest integer not above t, for t < 0 the smallest integer not below t. |
| DayNight.TimeText | main.js:422-423 | The time display is at least 11 characters and starts with "Time: ". |
| DayNight.TimeTextReadsBack | main.js:420-423 | "Time: HH:MM" has 11 characters, each field two digits that read back as the hour and the minute. |
| DayNight.Clock.constructor | main.js:11 | The clock starts at noon. |
| DayNight.Clock.Update | main.js:398-424 | The clock becomes `Advanced` of the old one; the sky, ambient light and text follow the new value, with ambient at least 0.2. |
| Hud.Round | main.js:491 | `Math.round` gives the integer within half of the value. |
| Hud.SpeedReading | main.js:489-491 | The reading is within 0.5 of abs(speed) × 500, and at most 50 for arrow-key speeds. |
| Hud.SpeedText | main.js:490-491 | The speedometer text starts with "Speed: ", ends with " km/h", and has at least one character between them. |
| Hud.ReadingIgnoresDirection | main.js:488-492 | Forward and reverse at the same speed show the same text. |
| Hud.SpeedTextReadsBack | main.js:488-492 | "Speed: N km/h" holds the decimal digits of the reading, with no leading zero, which read back as it. |
| Session.Apply | main.js:504-533 | Every event (key, collision, frame) keeps the car sound. |
| Session.RunKeepsSound | main.js:504-527 | Any sequence of events keeps a sound car sound: it never leaves the square. |
| Session.RunAppend | main.js:494-533 | Two runs back to back are one run of the concatenated events. |
| Session.SessionBounds | main.js:488-491 | From the start, after any events, the car is in the square and the speedometer shows at most 50. |
| Session.NoThrottleNoMove | main.js:432-441 | Without a throttle key press the car stays where it started, at rest. |
| Game.Position | main.js:174 | The car's position vector is at the body's height 1, over its x and z. |
| Game.World.constructor | main.js:8-26 | The game starts with the car at rest at the origin, no particles, every effect off and the clock at noon. |
| Game.World.MovePass | main.js:504-533 | The frame's move is `Stepped`, and the car stays valid. On an accepted move every wheel turns by the old speed × 5; otherwise the wheels are untouched. |
| Game.World.WeatherPass | main.js:547 | The pools stay valid, and fog density follows the fog flag. |
| Game.World.ParticlePass | main.js:550 | The frame's particles close the list, the exhaust freshly aged from its spawn point. |
| Game.World.ClockPass | main.js:553 | The clock advances; the sky and the light follow it. |
| Game.World.Advance | main.js:504-553 | The order of the frame after the physics step: the car moves and its wheels spin as in `MovePass`; the exhaust is spawned at the moved car with the turned heading; the fog follows its flag; the clock advances. |
| Game.World.Animate | main.js:494-559 | After the frame, the time and speed texts are read from the new state, and the reading is at most 50. |

## Left out

- Rendering and scene construction are not modelled: meshes, materials, geometry, the renderer, window resizing, and the random placement of trees and buildings.
- The cannon-es physics world is not modelled: its step, bodies and collision detection. A collision enters only as the damping event.
- The copy of the car's pose into its physics body (main.js:519, 532) is not modelled.
- Camera follow (main.js:536-544) is not modelled. It is vector and matrix maths inside three.js.
- Audio playback is not modelled. Key handlers return the audio request they would make. The engine's play-unless-playing test is folded into `StartEngine`.
- DOM and UI wiring are not modelled beyond the flag flips the buttons perform. The car colour picker is left out too.
- `Math.sin`, `Math.cos` and `Math.random` are parameters. Sky colours are modelled only as far as the day/night split, with the daytime ramp over a given sine.
- IEEE-754 doubles are not modelled. Everything is exact real arithmetic, so "a particle dies after exactly 50 updates" and `DayLasts2400Frames` hold in the model, not necessarily in JavaScript.
- Lighting.Headlights: the two bulb meshes share one material in the game, so the model holds one emissive value per entry and does not capture that aliasing.
- Particles.ParticleSystem.Update: the particles spawned this frame are returned as a ghost value, so that the contract can name them. The game discards them.
- Game.World: the headlights are not a field, because a frame never touches them. They are changed only by `Input.OnKeyDown`.
- Game.World.ParticlePass: states only the exhaust particle and the list's validity. The full survivors-in-order promise is in `Particles.ParticleSystem.Update`.
- Game.World.WeatherPass: states only validity and fog density. The per-drop step is in `Atmosphere.Weather.Update`.
- Game.World.Advance: states the car and its wheels, the exhaust particle, the fog, the clock and the sky. The survivors of the particle list and each drop's step are stated by the passes' own methods.
- Game.World.Animate: states what `Advance` states plus the two texts. The layout of the texts is proved separately, by `DayNight.TimeTextReadsBack` and `Hud.SpeedTextReadsBack`.
