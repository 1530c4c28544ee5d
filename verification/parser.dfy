/**
  The Mojikun opcode decoder: every character of the program text becomes one
  `Node`. Eight emoji name the eight instructions; any other character is the
  catch-all `None`.
*/
module Parser {

  /** A node of the abstract syntax tree: one instruction per character. */
  datatype Node =
    | PointLeft
    | PointRight
    | ThumbsUp
    | ThumbsDown
    | Save
    | Display
    | Loop
    | EndLoop
    | None

  /** The emoji that spells an instruction. */
  function Glyph(n: Node): char
    requires n != None
  {
    match n
    case PointLeft => '\U{1F448}'   // 👈
    case PointRight => '\U{1F449}'  // 👉
    case ThumbsUp => '\U{1F44D}'    // 👍
    case ThumbsDown => '\U{1F44E}'  // 👎
    case Save => '\U{1F4BE}'        // 💾
    case Display => '\U{1F4BB}'     // 💻
    case Loop => '\U{1F503}'        // 🔃
    case EndLoop => '\U{1F519}'     // 🔙
  }

  /** The eight characters that are instructions. */
  const Glyphs: set<char> :=
    {Glyph(PointLeft), Glyph(PointRight), Glyph(ThumbsUp), Glyph(ThumbsDown),
     Glyph(Save), Glyph(Display), Glyph(Loop), Glyph(EndLoop)}

  /** The node one character decodes to: an instruction exactly when the
      character is that instruction's emoji, `None` exactly when it is not an
      instruction at all. */
  function Decode(t: char): (n: Node)
    ensures n != None ==> Glyph(n) == t
    ensures n == None <==> t !in Glyphs
  {
    match t
    case '\U{1F448}' => PointLeft
    case '\U{1F449}' => PointRight
    case '\U{1F44D}' => ThumbsUp
    case '\U{1F44E}' => ThumbsDown
    case '\U{1F4BE}' => Save
    case '\U{1F4BB}' => Display
    case '\U{1F503}' => Loop
    case '\U{1F519}' => EndLoop
    case _ => None
  }

  /** Each instruction's emoji decodes back to that instruction, so the eight
      emoji are distinct and `Glyphs` is exactly the set of them. */
  lemma DecodeGlyph(n: Node)
    requires n != None
    ensures Decode(Glyph(n)) == n
    ensures Glyph(n) in Glyphs
  {
  }

  /** The nodes of `tokens`, one per character and in the same order. */
  function Parse(tokens: seq<char>): (nodes: seq<Node>)
    ensures |nodes| == |tokens|
    ensures forall i :: 0 <= i < |tokens| ==> nodes[i] == Decode(tokens[i])
  {
    if |tokens| == 0 then []
    else [Decode(tokens[0])] + Parse(tokens[1..])
  }

  /** A position of the output holds an instruction exactly when that
      position of the input holds the instruction's emoji; in particular
      only 🔃 and 🔙 ever yield `Loop` and `EndLoop`. */
  lemma ParseAt(tokens: seq<char>, i: int, n: Node)
    requires 0 <= i < |tokens|
    ensures n != None ==> (Parse(tokens)[i] == n <==> tokens[i] == Glyph(n))
    ensures Parse(tokens)[i] == None <==> tokens[i] !in Glyphs
  {
    if n != None {
      DecodeGlyph(n);
    }
  }

  /** Parsing distributes over concatenation of the program text. */
  lemma ParseAppend(a: seq<char>, b: seq<char>)
    ensures Parse(a + b) == Parse(a) + Parse(b)
  {
  }

  /** Number of characters of `s` that are not instructions. */
  function CountOthers(s: seq<char>): nat
  {
    if |s| == 0 then 0
    else (if s[0] in Glyphs then 0 else 1) + CountOthers(s[1..])
  }

  /** Each instruction occurs in the output as often as its emoji occurs in
      the input (so there are as many `Loop` nodes as 🔃 characters and as
      many `EndLoop` nodes as 🔙), and `None` as often as the input has
      characters that are not instructions. */
  lemma {:induction false} ParseCounts(tokens: seq<char>, n: Node)
    ensures n != None ==> multiset(Parse(tokens))[n] == multiset(tokens)[Glyph(n)]
    ensures multiset(Parse(tokens))[None] == CountOthers(tokens)
    decreases |tokens|
  {
    if |tokens| > 0 {
      var t, rest := tokens[0], tokens[1..];
      assert tokens == [t] + rest;
      assert multiset(tokens) == multiset([t]) + multiset(rest);
      assert multiset(Parse(tokens)) == multiset([Decode(t)]) + multiset(Parse(rest));
      ParseCounts(rest, n);
      if n != None {
        DecodeGlyph(n);
      }
    }
  }

  /** The unit tests of the parser, stated of the model: each emoji alone
      parses to its instruction. */
  lemma ParserUnitTests()
    ensures Parse(['\U{1F449}']) == [PointRight]
    ensures Parse(['\U{1F448}']) == [PointLeft]
    ensures Parse(['\U{1F44D}']) == [ThumbsUp]
    ensures Parse(['\U{1F44E}']) == [ThumbsDown]
    ensures Parse(['\U{1F4BB}']) == [Display]
    ensures Parse(['\U{1F4BE}']) == [Save]
    ensures Parse(['\U{1F503}']) == [Loop]
    ensures Parse(['\U{1F519}']) == [EndLoop]
  {
  }
}
