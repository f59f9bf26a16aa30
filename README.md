# Emoji draw game: state machine model

This project models the game logic of the `Game` React component, a grid of twenty
animal emoji. Clicking a tile selects that emoji, adds one to its count and paints the tile with
a colour from an eight-entry palette. "Play" draws one tile at random. The drawn emoji
becomes the winner, and the points grow by 100 times that tile's count. "Refresh Points"
starts over.

The model has three parts:

- `Tokens` (tokens.dfy) holds the pure part: the `Token` record `{emoji, count, color}`, the
  twenty emoji and the palette as constants, and the list operations the handlers use. These
  are the fresh list built by `initialImages.map`, the per-click `prev.map` update and `images.find`.
- `GameModel` (game.dfy) holds the component's state as the class `Game`. Its fields are
  `images`, `selected`, `winner`, `points` and `message`, and its methods `SelectImage`,
  `PlayGame` and `RefreshPoints` are the three handlers. The invariant `Consistent` is stated
  over plain values, and `Valid` applies it to the fields. It says the following:
  - the grid keeps its twenty emoji in their original order;
  - each count equals the number of clicks on that emoji since the last refresh (a ghost
    history `clicks` records them);
  - a tile has a palette colour exactly when its count is positive;
  - the winner is present on the grid, and the message is the winner's congratulation or empty;
  - points are non-negative, and `Valid` adds that they are 100 times the multipliers drawn
    since the last refresh (a ghost total `awarded`).

  Pure lemmas prove that the initial state, a click and a draw each keep `Consistent`, and the
  methods use them. Four client methods (`Scenario…`) show what callers can derive from the contracts.
- `JsPoints` (js_points.dfy) holds the JavaScript semantics of `points` after the source's
  reset. It backs the finding below.

Randomness is passed in as parameters. `colourIndex < |Colors|` stands for
`Math.floor(Math.random() * colors.length)`. `drawIndex < |images|` stands for
`Math.floor(Math.random() * images.length)`. With those, every handler is deterministic.
`playGame`'s guard `!selected` is JavaScript truthiness, so the model rejects both "no
selection" and a selected empty string (`IsSelected`).

## Model

| member | source | states |
|---|---|---|
| `Tokens.InitialEmojiDistinct` | src/Game.jsx:5-8 | The initial list has 20 emoji, no two equal. |
| `Tokens.PaletteSize` | src/Game.jsx:35-44 | The palette has 8 colours. |
| `Tokens.Fresh` | src/Game.jsx:47-49 | The fresh list keeps the given emoji in order, and every token has count 0 and no colour. |
| `Tokens.ApplyClick` | src/Game.jsx:65-71 | A click keeps the emoji sequence. Every token with the clicked emoji gets count + 1 and the drawn colour, and every other token is left identical. |
| `Tokens.Find` | src/Game.jsx:79 | The result is present exactly when some token has the emoji. A present result has that emoji and is the first token in the list that has it. |
| `Tokens.FindUnique` | src/Game.jsx:76-80 | When no emoji repeats, finding the drawn token's emoji returns that exact token, so the multiplier is the drawn token's count. |
| `GameModel.FreshIsConsistent` | src/Game.jsx:47-53 | The initial tokens, with no clicks, no winner, an empty message and 0 points, satisfy the invariant. |
| `GameModel.ClickKeepsConsistent` | src/Game.jsx:63-71 | A click with any palette colour keeps the invariant once the click is added to the history. Each count stays equal to the number of clicks on its emoji. |
| `GameModel.DrawKeepsConsistent` | src/Game.jsx:76-82 | A draw of any grid index keeps the invariant, with that emoji as the winner, its congratulation as the message and 100 times its count added to the points. |
| `GameModel.DrawnTokenIsFound` | src/Game.jsx:76-80 | In a consistent state, looking up the drawn emoji returns the drawn token itself, so the multiplier is that token's count. |
| `GameModel.WinMessage` | src/Game.jsx:82 | The message is non-empty and contains the winning emoji right after its prefix. |
| `GameModel.Game.constructor` | src/Game.jsx:47-53 | Initial state: fresh tokens, no selection, no winner, 0 points, empty message; the invariant holds. |
| `GameModel.Game.SelectImage` | src/Game.jsx:60-72 | The selection becomes the emoji, and it is on the grid whenever the clicked emoji was. That token's count grows by exactly 1 and it takes palette colour `Colors[colourIndex]`. Other tokens, the winner, the points and the message are unchanged. The invariant is kept. |
| `GameModel.Game.PlayGame` | src/Game.jsx:74-84 | Rejected exactly when nothing (truthy) is selected, and then no field changes. Otherwise the winner is `images[drawIndex].emoji`, points grow by 100 times its count (found through `images.find`), and the message names it. Tokens and selection never change. The invariant is kept. |
| `GameModel.Game.RefreshPoints` | src/Game.jsx:86-92 | Every token is fresh again, and selection, winner and message are cleared. Points become the number 0, not the source's `""`. |
| `JsPoints.Decimal` | src/Game.jsx:81 | The string form of a number has at least one digit, only digits, and no leading zero. |
| `JsPoints.DecimalRoundTrip` | src/Game.jsx:81 | Parsing the decimal form of n gives back n. |
| `JsPoints.NumericAccumulates` | src/Game.jsx:81 | While points hold a number, a series of draws adds exactly the sum of their awards. |
| `JsPoints.StringAccumulates` | src/Game.jsx:81 | Once points hold a string, draws only append the awards' decimal forms. Points never become a number again. |
| `JsPoints.AsWrittenResetConcatenates` | src/Game.jsx:86-87 | After the as-written reset to `""`, two awards of 200 give `"200200"`. From the number 0 they give 400. |

## Left out

- Rendering, styling and animation (src/Game.jsx:94-172) are presentation only.
- The `dark` flag and its toggle (src/Game.jsx:54, 100) have no effect on game state.
- The `animalNames` lookup (src/Game.jsx:11-32) is display only.
- The win sound (`useSound`, `winSound()`, src/Game.jsx:56-58, 83) is a call into a foreign library with no effect on state. It is treated as a no-op.
- The alert text (src/Game.jsx:75) is not modelled. A rejected draw is `played == false` with the state unchanged.
- `Math.random()` is replaced by index parameters with range preconditions. No probability distribution is modelled.
- React's asynchronous state setters are not modelled. Each handler is taken to run atomically, to completion, before the next event.
- A "decrement count" operation and a session-wide fixed colour policy belong to another variant of the game that is not part of this model. This source draws an independent palette colour on every click.
- Points are unbounded integers. JavaScript numbers lose integer precision above 2^53, a range the game never reaches in practice.
- Emoji are compared only for equality. That JavaScript counts each emoji as two UTF-16 units is irrelevant here and not modelled.
- `GameModel.Game.SelectImage` does not require the emoji to be on the grid, because the source does not check it either. An emoji that is not on the grid still becomes the selection but changes no token.

## Findings

| source | as written | input that shows it | evidently intended | confidence | as-written member | corrected member |
|---|---|---|---|---|---|---|
| src/Game.jsx:87 | `refreshPoints` stores `""` in `points`, so the next `points + 100 * multiplier` (line 81) concatenates strings | refresh, then two draws each worth 200: points show `"200200"` | reset to the number 0, so the same draws give 400 | high (not executed) | `JsPoints.AsWrittenResetConcatenates` | `GameModel.Game.RefreshPoints` (points == 0; with `JsPoints.NumericAccumulates` draws then add up) |
