/**
 * The state machine of the `Game` component: its five pieces of state and
 * the three click handlers `selectImage`, `playGame` and `refreshPoints`.
 * Each handler runs to completion before the next one starts, so each is one
 * method. The two calls to `Math.random()` become index parameters.
 */
module GameModel {

  import opened Wrappers
  import opened Tokens

  const WinPrefix: string := "🎉 "
  const WinSuffix: string := " ne jeet liya hai is samay!"

  /** The congratulation shown after a draw: non-empty, and it names the drawn emoji. */
  function WinMessage(emoji: Emoji): (m: string)
    ensures |WinPrefix| + |emoji| < |m|
    ensures m[|WinPrefix|..|WinPrefix| + |emoji|] == emoji
  {
    WinPrefix + emoji + WinSuffix
  }

  /**
   * JavaScript's truthiness of `selected`: both `null` and the empty string are falsy,
   * so `playGame` goes on only for a non-empty selected emoji.
   */
  predicate IsSelected(selected: Option<Emoji>)
  {
    selected.Some? && selected.value != ""
  }

  /**
   * The state invariant, over the component's values: the grid keeps its twenty
   * emoji in their order; each token's count is the number of clicks on it in
   * `clicks`; a token carries a palette colour exactly when it has been clicked;
   * the winner is one of the grid's emoji, and the message is the winner's
   * congratulation (empty when there is no winner); points are non-negative.
   */
  ghost predicate Consistent(images: seq<Token>, clicks: seq<Emoji>, winner: Option<Emoji>, message: string, points: int)
  {
    && Emojis(images) == InitialEmoji
    && (forall i :: 0 <= i < |images| ==> images[i].count == multiset(clicks)[images[i].emoji])
    && (forall i :: 0 <= i < |images| ==> (images[i].color.Some? <==> images[i].count > 0))
    && (forall i :: 0 <= i < |images| && images[i].color.Some? ==> images[i].color.value in Colors)
    && (winner.Some? ==> winner.value in Emojis(images))
    && message == (if winner.Some? then WinMessage(winner.value) else "")
    && points >= 0
  }

  /** The initial state is consistent with an empty click history. */
  lemma FreshIsConsistent()
    ensures Consistent(Fresh(InitialEmoji), [], None, "", 0)
  {
  }

  /** A click with a palette colour keeps the invariant, with the click added to the history. */
  lemma ClickKeepsConsistent(images: seq<Token>, clicks: seq<Emoji>, winner: Option<Emoji>, message: string, points: int, emoji: Emoji, colourIndex: nat)
    requires Consistent(images, clicks, winner, message, points)
    requires colourIndex < |Colors|
    ensures Consistent(ApplyClick(images, emoji, Colors[colourIndex]), clicks + [emoji], winner, message, points)
  {
    var after := ApplyClick(images, emoji, Colors[colourIndex]);
    forall i | 0 <= i < |after|
      ensures after[i].count == multiset(clicks + [emoji])[after[i].emoji]
    {
      assert after[i].emoji == Emojis(after)[i] == Emojis(images)[i] == images[i].emoji;
      assert multiset(clicks + [emoji]) == multiset(clicks) + multiset{emoji};
    }
  }

  /** A draw of any grid index keeps the invariant, with that token as winner and its award added. */
  lemma DrawKeepsConsistent(images: seq<Token>, clicks: seq<Emoji>, winner: Option<Emoji>, message: string, points: int, drawIndex: nat)
    requires Consistent(images, clicks, winner, message, points)
    requires drawIndex < |images|
    ensures Consistent(images, clicks, Some(images[drawIndex].emoji), WinMessage(images[drawIndex].emoji), points + 100 * images[drawIndex].count)
  {
    assert Emojis(images)[drawIndex] == images[drawIndex].emoji;
  }

  /** In a consistent state, looking up the drawn emoji finds the drawn token itself. */
  lemma DrawnTokenIsFound(images: seq<Token>, clicks: seq<Emoji>, winner: Option<Emoji>, message: string, points: int, drawIndex: nat)
    requires Consistent(images, clicks, winner, message, points)
    requires drawIndex < |images|
    ensures Find(images, images[drawIndex].emoji) == Some(images[drawIndex])
  {
    InitialEmojiDistinct();
    FindUnique(images, drawIndex);
  }

  class Game {
    var images: seq<Token>
    var selected: Option<Emoji>
    var winner: Option<Emoji>
    var points: int
    var message: string

    /** The emoji clicked since the game was created or last refreshed, oldest first. */
    ghost var clicks: seq<Emoji>

    /** The sum of the multipliers of all draws since the game was created or last refreshed. */
    ghost var awarded: nat

    /**
     * The component's state is consistent with the ghost click history, and the
     * points are 100 for every unit of multiplier drawn since the last refresh.
     */
    ghost predicate Valid()
      reads this
    {
      Consistent(images, clicks, winner, message, points) && points == 100 * awarded
    }

    /** The initial state of the component's `useState` hooks. */
    constructor ()
      ensures Valid()
      ensures images == Fresh(InitialEmoji)
      ensures selected == None && winner == None && points == 0 && message == ""
      ensures clicks == [] && awarded == 0
    {
      FreshIsConsistent();
      images := Fresh(InitialEmoji);
      selected := None;
      winner := None;
      points := 0;
      message := "";
      clicks := [];
      awarded := 0;
    }

    /**
     * `selectImage(emoji)`, where `colourIndex` is the palette index that
     * `Math.floor(Math.random() * colors.length)` produced. An emoji that is not
     * on the grid still becomes the selection but changes no token.
     */
    method SelectImage(emoji: Emoji, colourIndex: nat)
      requires Valid()
      requires colourIndex < |Colors|
      modifies this
      ensures Valid()
      ensures selected == Some(emoji)
      ensures images == ApplyClick(old(images), emoji, Colors[colourIndex])
      ensures forall i :: 0 <= i < |images| && old(images)[i].emoji == emoji ==>
        images[i].count == old(images)[i].count + 1 && images[i].color == Some(Colors[colourIndex])
      ensures forall i :: 0 <= i < |images| && old(images)[i].emoji != emoji ==> images[i] == old(images)[i]
      ensures winner == old(winner) && points == old(points) && message == old(message)
      ensures clicks == old(clicks) + [emoji] && awarded == old(awarded)
      ensures OnGrid(old(images), emoji) ==> OnGrid(images, selected.value)
    {
      selected := Some(emoji);
      var randomColor := Colors[colourIndex];
      ClickKeepsConsistent(images, clicks, winner, message, points, emoji, colourIndex);
      images := ApplyClick(images, emoji, randomColor);
      clicks := clicks + [emoji];
    }

    /**
     * `playGame()`, where `drawIndex` is the grid index that
     * `Math.floor(Math.random() * images.length)` produced. Without a selection
     * the call is rejected (the source shows an alert) and nothing changes;
     * otherwise the drawn emoji wins and the points grow by 100 times its count.
     * The draw never touches the tokens or the selection. The sound it plays is
     * not part of the state.
     */
    method PlayGame(drawIndex: nat) returns (played: bool)
      requires Valid()
      requires drawIndex < |images|
      modifies this
      ensures Valid()
      ensures played <==> IsSelected(old(selected))
      ensures !played ==> unchanged(this)
      ensures played ==> winner == Some(old(images)[drawIndex].emoji)
      ensures played ==> points == old(points) + 100 * old(images)[drawIndex].count
      ensures played ==> message == WinMessage(old(images)[drawIndex].emoji)
      ensures played ==> awarded == old(awarded) + old(images)[drawIndex].count
      ensures images == old(images) && selected == old(selected) && clicks == old(clicks)
    {
      if !IsSelected(selected) {
        return false;
      }
      var rand := images[drawIndex];
      winner := Some(rand.emoji);

      DrawnTokenIsFound(images, clicks, old(winner), message, points, drawIndex);
      var winnerToken := Find(images, rand.emoji);
      var multiplier := winnerToken.value.count;
      assert multiplier == rand.count;
      DrawKeepsConsistent(images, clicks, old(winner), message, points, drawIndex);
      points := points + 100 * multiplier;
      awarded := awarded + multiplier;
      message := WinMessage(rand.emoji);
      played := true;
    }

    /**
     * `refreshPoints()`: back to the initial state. The source writes `""` into
     * `points` here, after which JavaScript's `+` concatenates instead of adding;
     * this model resets points to the number 0 that the rest of the component expects
     * (the as-written behaviour is modelled in module JsPoints).
     */
    method RefreshPoints()
      modifies this
      ensures Valid()
      ensures images == Fresh(InitialEmoji)
      ensures selected == None && winner == None && points == 0 && message == ""
      ensures clicks == [] && awarded == 0
    {
      points := 0;
      message := "";
      winner := None;
      selected := None;
      images := Fresh(InitialEmoji);
      clicks := [];
      awarded := 0;
    }
  }

  /** Two clicks on the panda, then a draw of the panda: 100 times 2 points. */
  method ScenarioSelectTwiceDrawSame()
  {
    var g := new Game();
    g.SelectImage("🐼", 0);
    g.SelectImage("🐼", 5);
    assert g.images[0].count == 2;
    var played := g.PlayGame(0);
    assert played && g.winner == Some("🐼") && g.points == 200;
  }

  /** A draw before any click is rejected and leaves the fresh state as it was. */
  method ScenarioDrawWithoutSelection()
  {
    var g := new Game();
    var played := g.PlayGame(7);
    assert !played && g.points == 0 && g.winner == None && g.message == "";
  }

  /** A click on the panda and a draw of the lion: the lion wins, no points. */
  method ScenarioDrawOther()
  {
    var g := new Game();
    assert g.images[0].emoji == "🐼" && g.images[1].emoji == "🦁";
    g.SelectImage("🐼", 2);
    assert g.images[1].count == 0;
    var played := g.PlayGame(1);
    assert played && g.winner == Some("🦁") && g.points == 0;
    assert g.images[0].count == 1 && g.images[1].count == 0;
  }

  /** After a refresh, draws add up as numbers again: 200 and 200 more make 400. */
  method ScenarioRefreshThenDraws()
  {
    var g := new Game();
    g.SelectImage("🐯", 1);
    g.RefreshPoints();
    assert g.images[0].emoji == "🐼";
    g.SelectImage("🐼", 0);
    g.SelectImage("🐼", 6);
    assert g.images[0].count == 2;
    var played := g.PlayGame(0);
    assert g.points == 200;
    played := g.PlayGame(0);
    assert g.points == 400;
  }

}
