/**
  The board of the stone questionnaires (jogo_saudemental/pedras_teste.py and
  jogo_saudemental/teste.py, which share it): the option colours, the colour
  names used as counter keys, the score weights, the stone layout and the
  circle hit test.
*/
module StoneBoard {
  import opened Wrappers

  datatype Rgb = Rgb(red: int, green: int, blue: int)

  /** The colour of each option, in option order. */
  const OptionColors: seq<Rgb> := [Rgb(255, 223, 0), Rgb(0, 255, 0), Rgb(0, 128, 255), Rgb(255, 0, 0)]

  /** The names of the option colours, in option order; the click counter's keys. */
  const ColorNames: seq<string> := ["Amarelo", "Verde", "Azul", "Vermelho"]

  /** The name given to any other colour. */
  const Unknown: string := "Desconhecido"

  /** The score weight of each option index. */
  const ScoreMap: seq<int> := [1, 2, 3, 0]

  /** The name of a colour: one of the four option colours, or `Unknown`. */
  function ColorName(c: Rgb): (name: string)
    ensures forall k | 0 <= k < |OptionColors| :: c == OptionColors[k] <==> name == ColorNames[k]
    ensures (forall k | 0 <= k < |OptionColors| :: c != OptionColors[k]) <==> name == Unknown
  {
    if c == Rgb(255, 223, 0) then assert c == OptionColors[0]; "Amarelo"
    else if c == Rgb(0, 255, 0) then assert c == OptionColors[1]; "Verde"
    else if c == Rgb(0, 128, 255) then assert c == OptionColors[2]; "Azul"
    else if c == Rgb(255, 0, 0) then assert c == OptionColors[3]; "Vermelho"
    else Unknown
  }

  /** A stone: centre, radius, colour and the option text it stands for. */
  datatype Stone = Stone(cx: int, cy: int, radius: int, color: Rgb, option: string)

  const ScreenWidth: int := 800
  const StoneX: int := ScreenWidth / 2 - 100
  const StartY: int := 150
  const Spacing: int := 100
  const Radius: int := 30

  /** One stone per option, in a column at x = StoneX, 100 px apart. */
  function Layout(options: seq<string>): seq<Stone>
    requires |options| == |OptionColors|
  {
    seq(|OptionColors|, i requires 0 <= i < |OptionColors| =>
      Stone(StoneX, StartY + i * Spacing, Radius, OptionColors[i], options[i]))
  }

  /** A click at (x, y) hits a stone when it lies inside or on its circle. */
  predicate Hits(s: Stone, x: int, y: int) {
    var dx, dy := x - s.cx, y - s.cy;
    dx * dx + dy * dy <= s.radius * s.radius
  }

  /** The first stone, in layout order, that the click hits. */
  function FirstHit(stones: seq<Stone>, x: int, y: int): (r: Option<nat>)
    ensures r.Some? ==> r.value < |stones| && Hits(stones[r.value], x, y) &&
                        forall j | 0 <= j < r.value :: !Hits(stones[j], x, y)
    ensures r.None? ==> forall j | 0 <= j < |stones| :: !Hits(stones[j], x, y)
  {
    if stones == [] then None
    else if Hits(stones[0], x, y) then Some(0)
    else match FirstHit(stones[1..], x, y)
      case Some(k) => Some(k + 1)
      case None => None
  }

  /** The position of the first occurrence of `item` in `list`. */
  function IndexOf(list: seq<string>, item: string): (i: nat)
    requires item in list
    ensures i < |list| && list[i] == item
    ensures forall j | 0 <= j < i :: list[j] != item
  {
    if list[0] == item then 0 else 1 + IndexOf(list[1..], item)
  }

  predicate Distinct(list: seq<string>) {
    forall i, j | 0 <= i < j < |list| :: list[i] != list[j]
  }

  /** A number at least `m` away from zero has a square of at least m * m. */
  lemma SquareAtLeast(d: int, m: nat)
    requires m <= d || d + m <= 0
    ensures d * d >= m * m
  {
    assert d * d - m * m == (d - m) * (d + m);
    if d >= m {
      assert (d - m) * (d + m) >= 0;
    } else {
      assert (-d - m) * (-d + m) >= 0;
    }
  }

  /** Two different stones of the layout are never hit by the same click:
      their centres are 100 px apart and their radius is 30. */
  lemma StonesDisjoint(options: seq<string>, x: int, y: int, i: nat, j: nat)
    requires |options| == |OptionColors| && i < j < |OptionColors|
    ensures !(Hits(Layout(options)[i], x, y) && Hits(Layout(options)[j], x, y))
  {
    var stones := Layout(options);
    var dx, di, dj := x - StoneX, y - stones[i].cy, y - stones[j].cy;
    assert di - dj == (j - i) * Spacing >= Spacing;
    SquareAtLeast(dx, 0);
    if di >= 50 {
      SquareAtLeast(di, 50);
    } else if di <= -50 {
      SquareAtLeast(di, 50);
    } else {
      SquareAtLeast(dj, 50);
    }
  }

  /** A click hits at most one stone, so the stone it hits is the first hit. */
  lemma OnlyHit(options: seq<string>, x: int, y: int, i: nat)
    requires |options| == |OptionColors| && i < |OptionColors|
    requires Hits(Layout(options)[i], x, y)
    ensures FirstHit(Layout(options), x, y) == Some(i)
    ensures forall j | 0 <= j < |OptionColors| && j != i :: !Hits(Layout(options)[j], x, y)
  {
    forall j | 0 <= j < |OptionColors| && j != i
      ensures !Hits(Layout(options)[j], x, y)
    {
      if j < i { StonesDisjoint(options, x, y, j, i); } else { StonesDisjoint(options, x, y, i, j); }
    }
  }

  /** Among distinct option texts, the stone at position `i` has option index `i`. */
  lemma OptionIndexOfStone(options: seq<string>, i: nat)
    requires |options| == |OptionColors| && Distinct(options) && i < |OptionColors|
    ensures Layout(options)[i].option in options
    ensures IndexOf(options, Layout(options)[i].option) == i
  {
  }

  /** Every stone's colour has a counter name, never `Unknown`. */
  lemma StoneColorsNamed(options: seq<string>, i: nat)
    requires |options| == |OptionColors| && i < |OptionColors|
    ensures ColorName(Layout(options)[i].color) == ColorNames[i]
    ensures ColorName(Layout(options)[i].color) != Unknown
  {
  }
}
