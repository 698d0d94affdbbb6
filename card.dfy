/**
 * The colour of a code's category badge: the category's UTF-16 code units are
 * summed and the sum, taken modulo five, picks one of five fixed palettes.
 */
module DowntimeCodeCard {

  /** The five badge styles, in order. */
  const Palette: seq<string> := [
    "bg-blue-500/10 text-blue-700 border-blue-500/20",
    "bg-emerald-500/10 text-emerald-700 border-emerald-500/20",
    "bg-amber-500/10 text-amber-700 border-amber-500/20",
    "bg-purple-500/10 text-purple-700 border-purple-500/20",
    "bg-rose-500/10 text-rose-700 border-rose-500/20"
  ]

  /** The UTF-16 code units of one character: the character itself below
      U+10000, a surrogate pair above. */
  function CodeUnits(c: char): (units: seq<int>)
    ensures 1 <= |units| <= 2
    ensures forall k :: 0 <= k < |units| ==> 0 <= units[k] < 0x1_0000
    ensures (c as int) < 0x1_0000 ==> units == [c as int]
    ensures (c as int) >= 0x1_0000 ==>
      && |units| == 2
      && 0xD800 <= units[0] < 0xDC00 <= units[1] < 0xE000
      && 0x1_0000 + (units[0] - 0xD800) * 0x400 + (units[1] - 0xDC00) == c as int
  {
    var v := c as int;
    if v < 0x1_0000 then [v]
    else [0xD800 + (v - 0x1_0000) / 0x400, 0xDC00 + (v - 0x1_0000) % 0x400]
  }

  /** What one character adds to the hash: `charCodeAt(0)` of each of its units. */
  function CharWeight(c: char): (w: nat)
  {
    var units := CodeUnits(c);
    if |units| == 1 then units[0] else units[0] + units[1]
  }

  /** `category.split("")`: the UTF-16 code units of the whole string, in order. */
  function Utf16Units(s: string): (units: seq<int>)
  {
    if s == [] then [] else Utf16Units(s[..|s| - 1]) + CodeUnits(s[|s| - 1])
  }

  /** `units.reduce((acc, u) => acc + u, 0)`. */
  function UnitSum(units: seq<int>): (sum: int)
  {
    if units == [] then 0 else UnitSum(units[..|units| - 1]) + units[|units| - 1]
  }

  lemma {:induction false} UnitSumAppend(a: seq<int>, b: seq<int>)
    ensures UnitSum(a + b) == UnitSum(a) + UnitSum(b)
    decreases |b|
  {
    if b == [] {
      assert a + b == a;
    } else {
      assert (a + b)[..|a + b| - 1] == a + b[..|b| - 1];
      UnitSumAppend(a, b[..|b| - 1]);
    }
  }

  /** The hash, computed character by character. */
  function CategoryHash(category: string): (hash: nat)
  {
    if category == [] then 0
    else CategoryHash(category[..|category| - 1]) + CharWeight(category[|category| - 1])
  }

  /** The hash is the sum of the category's UTF-16 code units, first to last. */
  lemma {:induction false} HashIsUnitSum(category: string)
    ensures CategoryHash(category) == UnitSum(Utf16Units(category))
    decreases |category|
  {
    if category != [] {
      var init, last := category[..|category| - 1], category[|category| - 1];
      HashIsUnitSum(init);
      UnitSumAppend(Utf16Units(init), CodeUnits(last));
      var units := CodeUnits(last);
      assert UnitSum([units[0]]) == units[0];
    }
  }

  /** `getCategoryColor(category)`: always one of the five palette entries, the
      first one for the empty category. */
  function GetCategoryColor(category: string): (color: string)
    ensures color in Palette
    ensures color == Palette[CategoryHash(category) % |Palette|]
    ensures category == "" ==> color == Palette[0]
  {
    Palette[CategoryHash(category) % |Palette|]
  }

  /** The hash of a concatenation is the sum of the hashes of its parts. */
  lemma {:induction false} HashOfConcat(a: string, b: string)
    ensures CategoryHash(a + b) == CategoryHash(a) + CategoryHash(b)
    decreases |b|
  {
    if b != [] {
      var init := b[..|b| - 1];
      assert (a + b)[..|a + b| - 1] == a + init;
      assert (a + b)[|a + b| - 1] == b[|b| - 1];
      HashOfConcat(a, init);
    } else {
      assert a + b == a;
    }
  }

  /** Appending a character below U+10000 with code `c` moves the palette index
      on by `c` modulo five. */
  lemma AppendShiftsIndex(category: string, c: char)
    requires (c as int) < 0x1_0000
    ensures CategoryHash(category + [c]) % 5 == (CategoryHash(category) % 5 + (c as int) % 5) % 5
  {
    assert (category + [c])[..|category|] == category;
  }

  /** Taking one character out of a category lowers its hash by that character's weight. */
  lemma {:induction false} HashWithout(s: string, j: nat)
    requires j < |s|
    ensures CategoryHash(s) == CategoryHash(s[..j] + s[j + 1..]) + CharWeight(s[j])
    decreases |s|
  {
    var n := |s|;
    if j < n - 1 {
      var init := s[..n - 1];
      HashWithout(init, j);
      var rest := s[..j] + s[j + 1..];
      assert init[..j] + init[j + 1..] == rest[..|rest| - 1];
      assert rest[|rest| - 1] == s[n - 1];
    } else {
      assert s[..j] + s[j + 1..] == s[..n - 1];
    }
  }

  /** Categories made of the same characters, in any order, get the same colour. */
  lemma PermutationKeepsColor(a: string, b: string)
    requires multiset(a) == multiset(b)
    ensures GetCategoryColor(a) == GetCategoryColor(b)
  {
    PermutationKeepsHash(a, b);
  }

  /** The hash only depends on how often each character occurs. */
  lemma {:induction false} PermutationKeepsHash(a: string, b: string)
    requires multiset(a) == multiset(b)
    ensures CategoryHash(a) == CategoryHash(b)
    decreases |a|
  {
    if a != [] {
      var n := |a|;
      var last := a[n - 1];
      RemoveOne(a, n - 1);
      assert a[..n - 1] + a[n..] == a[..n - 1];
      assert last in multiset(b);
      var j :| 0 <= j < |b| && b[j] == last;
      RemoveOne(b, j);
      PermutationKeepsHash(a[..n - 1], b[..j] + b[j + 1..]);
      HashWithout(b, j);
    } else {
      assert |b| == |multiset(b)| == 0;
    }
  }

  lemma RemoveOne(s: string, j: nat)
    requires j < |s|
    ensures multiset(s[..j] + s[j + 1..]) == multiset(s) - multiset{s[j]}
  {
    assert s == s[..j] + [s[j]] + s[j + 1..];
    assert multiset(s) == multiset(s[..j]) + multiset{s[j]} + multiset(s[j + 1..]);
  }
}
