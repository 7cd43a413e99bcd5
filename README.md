# Setup wizard and remote moves of a two-player arcade game

This project models the browser game's `index.js` in Dafny. Two parts of the file hold
logic that can be stated and checked.

- **The setup wizard** is the object that `window.getGlobalData` returns (module
  `SetupWizard`, class `Wizard`). It holds a `step`, a `model` with a `name` and a
  `party`, a `ready` flag and a `userInteractions` log. `nextStep(n)` jumps to step `n`.
  `validates()` is the guard, and `submit()` is the terminal action. When the guard
  holds, `submit()` saves `{name, party}` to local storage under the key `"state"`. It
  invites a peer with the same object when the party is `"multi"`, and it sets `ready`.
  The storage write and the invitation are not performed. They are appended to an
  effect log (`effects`) as `Persist(key, snapshot)` and `Invite(snapshot)`, so the
  contracts can count them and compare their snapshots.
- **The match bootstrap** is `window.onload` (module `Match`). Its `remote` handler adds
  a peer's `{dx, dy}` payload to the opponent's coordinates (`Entity.OnRemote`). Lemmas
  show that a run of payloads moves the opponent by the sums of its deltas, whatever
  order they arrive in. The module also gives the fixed order in which `render` draws a
  frame, and the test in `maybeRescale` that decides whether the canvas is scaled.

The guard is modelled as written. `validates()` compares `this.model` (an object) with
`''` and reads `this.party`, a property the wizard does not have, so it compares
`undefined` with `null`. Both comparisons always hold, and the guard reduces to
`step == 3`. `Wizard.Validates` keeps the three conjuncts and proves that reduction.
Submitting at step 3 with an empty name and no party therefore persists
`{name: '', party: null}` and sets `ready` (`SubmitUntouchedForm`). The guard's last two
conjuncts look meant to reject an empty name or a missing party; as written they never
reject, and `nextStep` never checks the order of steps. The model follows the code.

The JavaScript values the guard compares are the datatype `JsValue`. For the
comparisons the code makes (an object against `''`, `undefined` against `null`, the
party against `'multi'`) strict equality is Dafny's `==`. Object identity is not
modelled.

## Model

| member | source | states |
|---|---|---|
| SetupWizard.Wizard.constructor | index.js:26-33 | a fresh wizard is at step 1 with name `''`, party `null`, `ready` false, and empty interaction and effect logs |
| SetupWizard.Wizard.OnUserInteraction | index.js:36-38 | each `userInteraction` event appends its direction at the end of the log; the earlier log is a prefix of the new one and no other field changes |
| SetupWizard.Wizard.NextStep | index.js:40-42 | `step` becomes `n` with no check, so it may move backwards or skip; name, party, `ready` and both logs are unchanged |
| SetupWizard.Wizard.Validates | index.js:59-61 | the guard as written is true exactly when `step == 3`; the model and party conjuncts never reject |
| SetupWizard.Wizard.Submit | index.js:43-58 | if the guard fails, `ready` and the effect log are unchanged; if it holds, `ready` becomes true for every party, the log grows by exactly one persist of `{name, party}` and by one invite of that same snapshot exactly when the party is `"multi"` |
| SetupWizard.SubmitUntouchedForm | index.js:40-60 | a fresh wizard moved to step 3 and submitted with name and party never set becomes ready and records exactly one persist of `{name: '', party: null}` under `"state"` and no invite |
| SetupWizard.SubmitEffects | index.js:45-56 | a successful submit writes first, writes once under key `"state"`, invites at most once and only for party `"multi"`, and every effect carries the snapshot that was built |
| SetupWizard.SubmitAddsOnePersist | index.js:49-52 | appended to any earlier log, a successful submit adds one persist and adds one invite iff the party is `"multi"` |
| SetupWizard.CountsOfConcatenation | index.js:49-52 | persist and invite counts of a log add up over concatenation, so effects already recorded are never lost |
| Match.Entity.OnRemote | index.js:102-106 | a `remote` payload adds `dx` to the opponent's `x` and `dy` to its `y` and writes nothing else |
| Match.ShiftAllAddsSums | index.js:102-106 | handling a sequence of payloads in order ends at the start point plus the componentwise sums of the deltas |
| Match.SumsOfConcatenation | index.js:104-105 | the delta sums of two runs of payloads add up |
| Match.ArrivalOrderIrrelevant | index.js:102-106 | two runs of payloads reach the same point whichever run arrives first |
| Match.TwoPayloadsFromTenTen | index.js:102-106 | payloads `{5, 0}` then `{-2, 3}` move an opponent at `(10, 10)` to `(13, 13)` |
| Match.DrawIndex | index.js:122-132 | every drawable has one place in the frame's draw order and appears there once |
| Match.RenderLayers | index.js:123-131 | the ground is drawn first and the ball last; both scores are drawn before both players, and both players before both baskets |
| Match.ScalesCanvas | index.js:136-147 | the canvas is scaled iff the window is no wider and no taller than the canvas; a window larger in either dimension leaves it unscaled |

## Left out

- The `kontra` library (`GameLoop`, `init`, `initKeys`, `initPointer`, `track`, the `on` event registry) is not part of this model. Event delivery is a direct call of `OnUserInteraction` or `OnRemote`, and `init`'s registration and `console.log` are not modelled.
- `movePlayer`, `moveOpponent` and `moveBall` (index.js:21, 110-120) and the sprite and scene constructors (index.js:14-19, 81-89) live in modules that are not part of this model. Player movement, opponent AI, ball physics and scoring are therefore not modelled. `moveOpponent` runs every tick whatever the party, and the `remote` handler is registered unconditionally, so in a multiplayer party both move the opponent; only the handler's part is modelled.
- `invitePeers` (the peer connection handshake) and `persistChanges` are network and storage plumbing. The invitation is recorded as an `Invite` effect only.
- `window.localStorage.setItem` and `JSON.stringify` are recorded as a `Persist` effect holding the snapshot as a value. The serialised string, and reading it back on a later load, are not modelled.
- The scale factors and `context.scale` in `maybeRescale` (index.js:148-152) use floating point and a canvas call. Only the test that decides whether scaling happens is modelled.
- The `window.onload` bootstrap's asset loading, wheel-event suppression and loop start (index.js:66-100, 108-134) are I/O and sequencing with no statable logic. The draw calls are modelled only as the constant `RenderOrder`.
- Match.Entity.OnRemote: coordinates and deltas are unbounded integers, whereas JavaScript numbers are floating point; rounding and non-numeric payloads are not modelled.
- SetupWizard.Wizard.Submit: `window.localStorage.setItem` and `invitePeers` are assumed to return normally. In the code, `setItem` throws when storage is full or disabled, and then neither the invite nor `ready = true` happens; if `invitePeers` throws, `ready` stays false. Exceptions are not modelled, so the model promises `ready` whenever the guard held.
- SetupWizard.JsValue: object identity is not modelled; every object is one value `Object`, so an object `direction` in `userInteractions` keeps no identity.
- SetupWizard.Wizard.NextStep: the step is an integer, whereas the page could pass any JavaScript value.
- The page's form bindings that write `model.name` and `model.party` are not part of this model. The fields are public and a caller assigns them directly.
