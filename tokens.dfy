/**
 * The tokens of the emoji game: the fixed list of twenty animal emoji, the
 * eight-colour palette, and the pure list operations the game's handlers use
 * (building the fresh list, applying one click to the list, finding a token).
 */
module Tokens {

  import opened Wrappers

  /** An emoji is identified by its string, as JavaScript compares them with `===`. */
  type Emoji = string

  /** A colour is one of the palette's class names. */
  type Colour = string

  /** One tile of the grid: its emoji, how often it was clicked, and its colour (`null` = none). */
  datatype Token = Token(emoji: Emoji, count: nat, color: Option<Colour>)

  /** `initialImages`: the twenty emoji in grid order. */
  const InitialEmoji: seq<Emoji> := [
    "🐼", "🦁", "🐰", "🐯", "🐵", "🐸", "🐻", "🐶", "🐱", "🦊",
    "🦝", "🦄", "🐮", "🐷", "🐔", "🐧", "🐤", "🐺", "🦖", "🦓"
  ]

  /** `colors`: the palette a click picks its colour from. */
  const Colors: seq<Colour> := [
    "bg-red-400", "bg-blue-400", "bg-yellow-400", "bg-purple-400",
    "bg-pink-400", "bg-green-400", "bg-orange-400", "bg-teal-400"
  ]

  /** The emoji of a token list, in order. */
  function Emojis(images: seq<Token>): seq<Emoji>
  {
    seq(|images|, i requires 0 <= i < |images| => images[i].emoji)
  }

  /** Some token of the list has this emoji. */
  predicate OnGrid(images: seq<Token>, emoji: Emoji)
  {
    exists i :: 0 <= i < |images| && images[i].emoji == emoji
  }

  /** No emoji occurs twice. */
  predicate Distinct(es: seq<Emoji>)
  {
    forall i, j :: 0 <= i < j < |es| ==> es[i] != es[j]
  }

  lemma InitialEmojiDistinct()
    ensures |InitialEmoji| == 20 && Distinct(InitialEmoji)
  {
  }

  lemma PaletteSize()
    ensures |Colors| == 8
  {
  }

  /**
   * The fresh token list `es.map(emoji => ({ emoji, count: 0, color: null }))`:
   * the same emoji in the same order, none clicked, none coloured.
   */
  function Fresh(es: seq<Emoji>): (r: seq<Token>)
    ensures Emojis(r) == es
    ensures forall i :: 0 <= i < |r| ==> r[i].count == 0 && r[i].color == None
  {
    seq(|es|, i requires 0 <= i < |es| => Token(es[i], 0, None))
  }

  /**
   * The list after a click on `emoji` that drew colour `colour`
   * (`prev.map(img => img.emoji === emoji ? {...img, count: img.count + 1, color} : img)`):
   * every token with that emoji is counted once more and takes the colour,
   * every other token is left exactly as it was.
   */
  function ApplyClick(images: seq<Token>, emoji: Emoji, colour: Colour): (r: seq<Token>)
    ensures Emojis(r) == Emojis(images)
    ensures forall i :: 0 <= i < |images| && images[i].emoji == emoji ==>
      r[i] == Token(emoji, images[i].count + 1, Some(colour))
    ensures forall i :: 0 <= i < |images| && images[i].emoji != emoji ==> r[i] == images[i]
  {
    if images == [] then []
    else
      var head := images[0];
      var first := if head.emoji == emoji then Token(head.emoji, head.count + 1, Some(colour)) else head;
      var rest := ApplyClick(images[1..], emoji, colour);
      assert Emojis([first] + rest) == [first.emoji] + Emojis(rest);
      assert Emojis(images) == [head.emoji] + Emojis(images[1..]);
      [first] + rest
  }

  /**
   * `images.find(i => i.emoji === emoji)`: the first token with that emoji,
   * or `None` (JavaScript's `undefined`) when there is none.
   */
  function Find(images: seq<Token>, emoji: Emoji): (r: Option<Token>)
    ensures r.Some? <==> exists i :: 0 <= i < |images| && images[i].emoji == emoji
    ensures r.Some? ==> r.value.emoji == emoji && r.value in images
    ensures r.Some? ==> exists k :: 0 <= k < |images| && images[k] == r.value && (forall j :: 0 <= j < k ==> images[j].emoji != emoji)
  {
    if images == [] then None
    else if images[0].emoji == emoji then Some(images[0])
    else
      var r := Find(images[1..], emoji);
      assert forall i :: 1 <= i < |images| ==> images[i] == images[1..][i - 1];
      r
  }

  /** In a list without repeated emoji, finding a token's emoji gives back that very token. */
  lemma {:induction false} FindUnique(images: seq<Token>, k: nat)
    requires k < |images|
    requires Distinct(Emojis(images))
    ensures Find(images, images[k].emoji) == Some(images[k])
  {
    if k > 0 {
      assert Emojis(images)[0] != Emojis(images)[k];
      assert Emojis(images[1..]) == Emojis(images)[1..];
      FindUnique(images[1..], k - 1);
    }
  }

}
