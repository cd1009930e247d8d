/**
 * Player display names: the filter applied to the raw name inputs before
 * they are stored (strip '<' and '>', cap the length at 20), and the
 * defaults used when nothing is left.
 */
module Names {

  /** The longest display name kept. */
  const MaxNameLength := 20

  const DefaultNameX := "Player 1"
  const DefaultNameO := "Player 2"

  /** A name that may be shown: no angle brackets and at most 20 characters. */
  predicate IsSafeName(s: string)
  {
    '<' !in s && '>' !in s && |s| <= MaxNameLength
  }

  /** The stored names, one per mark. */
  datatype PlayerNames = PlayerNames(x: string, o: string)

  const DefaultNames := PlayerNames(DefaultNameX, DefaultNameO)

  /** Removes every '<' and '>' and keeps the other characters in order. */
  function StripAngles(s: string): (r: string)
    ensures '<' !in r && '>' !in r
    ensures |r| <= |s|
    ensures forall c :: c != '<' && c != '>' ==> multiset(r)[c] == multiset(s)[c]
    ensures '<' !in s && '>' !in s ==> r == s
  {
    if s == [] then []
    else
      assert s == [s[0]] + s[1..];
      if s[0] == '<' || s[0] == '>' then StripAngles(s[1..])
      else [s[0]] + StripAngles(s[1..])
  }

  /** Stripping works character by character: it distributes over concatenation. */
  lemma {:induction false} StripAnglesAppend(s: string, t: string)
    ensures StripAngles(s + t) == StripAngles(s) + StripAngles(t)
  {
    if s == [] {
      assert s + t == t;
    } else {
      assert (s + t)[0] == s[0];
      assert (s + t)[1..] == s[1..] + t;
      StripAnglesAppend(s[1..], t);
    }
  }

  /** A character other than a bracket survives stripping in its place, between what precedes and what follows it. */
  lemma StripAnglesKeepsOrder(a: string, c: char, b: string)
    requires c != '<' && c != '>'
    ensures StripAngles(a + [c] + b) == StripAngles(a) + [c] + StripAngles(b)
  {
    StripAnglesAppend(a + [c], b);
    StripAnglesAppend(a, [c]);
    assert [c][1..] == [];
  }

  /**
   * The sanitised name: angle brackets removed, then cut to the first 20
   * characters. The empty input gives the empty name.
   */
  function ValidatePlayerName(name: string): (r: string)
    ensures IsSafeName(r)
    ensures name == "" ==> r == ""
    ensures r <= StripAngles(name)
    ensures |r| < MaxNameLength ==> r == StripAngles(name)
    ensures IsSafeName(name) ==> r == name
  {
    if name == "" then ""
    else
      var stripped := StripAngles(name);
      if |stripped| > MaxNameLength then stripped[..MaxNameLength] else stripped
  }

  /** A name is safe exactly when sanitising leaves it as it is. */
  lemma SafeNameIsFixedPoint(name: string)
    ensures IsSafeName(name) <==> ValidatePlayerName(name) == name
  {
  }

  /** Sanitising an already sanitised name changes nothing. */
  lemma ValidateIdempotent(name: string)
    ensures ValidatePlayerName(ValidatePlayerName(name)) == ValidatePlayerName(name)
  {
  }

  /** The name stored for a raw input: its sanitised form, or the default when that is empty. */
  function ResolveName(raw: string, default: string): (r: string)
    ensures r == ValidatePlayerName(raw) || r == default
    ensures ValidatePlayerName(raw) != "" ==> r == ValidatePlayerName(raw)
    ensures IsSafeName(default) ==> IsSafeName(r)
    ensures default != "" ==> r != ""
  {
    var v := ValidatePlayerName(raw);
    if v == "" then default else v
  }

  /** A name that is sanitised and not empty. */
  predicate IsDisplayName(s: string)
  {
    IsSafeName(s) && s != ""
  }

  /** Both stored names can be shown as they are. */
  predicate ValidNames(n: PlayerNames)
  {
    IsDisplayName(n.x) && IsDisplayName(n.o)
  }

  lemma DefaultNamesValid()
    ensures ValidNames(DefaultNames)
  {
  }

  /** "<script>" loses its brackets; 25 'a's are cut to 20. */
  lemma SanitiseExamples()
    ensures ValidatePlayerName("<script>") == "script"
    ensures ValidatePlayerName("aaaaaaaaaaaaaaaaaaaaaaaaa") == "aaaaaaaaaaaaaaaaaaaa"
  {
    assert "<script>" == "<" + "script" + ">";
    StripAnglesAppend("<" + "script", ">");
    StripAnglesAppend("<", "script");
    assert StripAngles("<") == StripAngles("");
    assert StripAngles(">") == StripAngles("");
    var a25 := "aaaaaaaaaaaaaaaaaaaaaaaaa";
    assert '<' !in a25 && '>' !in a25;
    assert a25[..MaxNameLength] == "aaaaaaaaaaaaaaaaaaaa";
  }
}
