/**
 * The contract shared by client and server: the two endpoints of the
 * downtime-code API, the body of a validation error, and `buildUrl`, which
 * fills `:key` placeholders of a path with parameter values.
 */
module SharedRoutes {
  import opened Wrappers
  import opened Text

  /** The one path both endpoints are served under. */
  const DowntimeCodesPath: string := "/api/downtime-codes"

  /** The body of a 400 answer: a message and, optionally, the offending field. */
  datatype ValidationErrorBody = ValidationErrorBody(message: string, field: Option<string>)

  /** A parameter value of `buildUrl`: a string or a number. */
  datatype ParamValue = Text(s: string) | Number(n: int)

  /** `String(value)`. */
  function ParamString(v: ParamValue): (r: string)
    ensures v.Number? ==> '$' !in r && ':' !in r
  {
    match v
    case Text(s) => s
    case Number(n) => IntToDecimal(n)
  }

  /** The replacement text that `String.prototype.replace` inserts for a string
      pattern: `$$` is a dollar sign, `$&` the matched text, `` $` `` the text
      before the match and `$'` the text after it; every other character,
      including any other `$`, is copied as it is. */
  function Substitute(matched: string, before: string, after: string, replacement: string): (r: string)
    decreases |replacement|
  {
    if replacement == [] then []
    else if replacement[0] == '$' && |replacement| >= 2 && replacement[1] in "$&`'" then
      var expansion :=
        if replacement[1] == '$' then "$"
        else if replacement[1] == '&' then matched
        else if replacement[1] == '`' then before
        else after;
      expansion + Substitute(matched, before, after, replacement[2..])
    else [replacement[0]] + Substitute(matched, before, after, replacement[1..])
  }

  /** A replacement without `$` is inserted verbatim. */
  lemma {:induction false} SubstituteVerbatim(matched: string, before: string, after: string, replacement: string)
    requires '$' !in replacement
    ensures Substitute(matched, before, after, replacement) == replacement
    decreases |replacement|
  {
    if replacement != [] {
      assert '$' !in replacement[1..];
      SubstituteVerbatim(matched, before, after, replacement[1..]);
    }
  }

  /** `s.replace(pattern, replacement)` with a string pattern: only the first
      occurrence of `pattern` is replaced. */
  function ReplaceFirst(s: string, pattern: string, replacement: string): (r: string)
    ensures !Contains(s, pattern) ==> r == s
    ensures Contains(s, pattern) ==>
      var i := IndexOf(s, pattern);
      r == s[..i] + Substitute(pattern, s[..i], s[i + |pattern|..], replacement) + s[i + |pattern|..]
    ensures Contains(s, pattern) && '$' !in replacement ==>
      var i := IndexOf(s, pattern);
      && OccursAt(s, pattern, i)
      && (forall j :: 0 <= j < i ==> !OccursAt(s, pattern, j))
      && r == s[..i] + replacement + s[i + |pattern|..]
  {
    var i := IndexOf(s, pattern);
    if i == -1 then s
    else
      var r := s[..i] + Substitute(pattern, s[..i], s[i + |pattern|..], replacement) + s[i + |pattern|..];
      if '$' in replacement then r
      else SubstituteVerbatim(pattern, s[..i], s[i + |pattern|..], replacement); r
  }

  /** The placeholder a key stands for in a path. */
  function Placeholder(key: string): (p: string)
  {
    ":" + key
  }

  /** One iteration of `buildUrl`'s loop: replace the key's placeholder if the url
      contains it, and otherwise leave the url as it is. */
  function Step(url: string, entry: (string, ParamValue)): (r: string)
    ensures !Contains(url, Placeholder(entry.0)) ==> r == url
  {
    if Contains(url, Placeholder(entry.0)) then ReplaceFirst(url, Placeholder(entry.0), ParamString(entry.1))
    else url
  }

  /** The url after the loop has run over `entries` in order, starting from `path`. */
  function ApplyParams(path: string, entries: seq<(string, ParamValue)>): (url: string)
  {
    if entries == [] then path
    else Step(ApplyParams(path, entries[..|entries| - 1]), entries[|entries| - 1])
  }

  /** `buildUrl(path, params)`: with no params the path itself, otherwise the path
      after every entry has had its turn, in order. */
  method BuildUrl(path: string, params: Option<seq<(string, ParamValue)>>) returns (url: string)
    ensures params.None? ==> url == path
    ensures params.Some? ==> url == ApplyParams(path, params.value)
  {
    url := path;
    if params.Some? {
      var entries := params.value;
      for i := 0 to |entries|
        invariant url == ApplyParams(path, entries[..i])
      {
        assert entries[..i + 1][..i] == entries[..i];
        var (key, value) := entries[i];
        if Contains(url, ":" + key) {
          url := ReplaceFirst(url, ":" + key, ParamString(value));
        }
      }
      assert entries[..|entries|] == entries;
    }
  }

  /** With an empty parameter object the path comes back unchanged. */
  lemma NoParamsKeepPath(path: string)
    ensures ApplyParams(path, []) == path
  {
  }

  /** The loop runs entry after entry: the later entries see the url the earlier
      ones produced. */
  lemma {:induction false} ApplyParamsAppend(path: string, first: seq<(string, ParamValue)>, second: seq<(string, ParamValue)>)
    ensures ApplyParams(path, first + second) == ApplyParams(ApplyParams(path, first), second)
    decreases |second|
  {
    if second == [] {
      assert first + second == first;
    } else {
      var last := second[|second| - 1];
      var init := second[..|second| - 1];
      assert (first + second)[..|first + second| - 1] == first + init;
      ApplyParamsAppend(path, first, init);
    }
  }

  /** A url containing a placeholder's leading `:` in no position contains no placeholder. */
  lemma NoColonNoPlaceholder(url: string, key: string)
    requires ':' !in url
    ensures !Contains(url, Placeholder(key))
  {
    forall i | 0 <= i <= |url|
      ensures !OccursAt(url, Placeholder(key), i)
    {
      if i < |url| {
        assert url[i] != ':';
      }
    }
  }

  /** A path without `:` is returned unchanged whatever the parameters. */
  lemma {:induction false} NoColonPathUnchanged(path: string, entries: seq<(string, ParamValue)>)
    requires ':' !in path
    ensures ApplyParams(path, entries) == path
    decreases |entries|
  {
    if entries != [] {
      NoColonPathUnchanged(path, entries[..|entries| - 1]);
      NoColonNoPlaceholder(path, entries[|entries| - 1].0);
    }
  }

  /** A present placeholder is replaced by the value at its first occurrence only:
      when nothing before it contains a `:`, whatever follows it is kept. */
  lemma ReplacesFirstOccurrence(before: string, key: string, after: string, value: ParamValue)
    requires ':' !in before && '$' !in ParamString(value)
    ensures Step(before + Placeholder(key) + after, (key, value)) == before + ParamString(value) + after
  {
    var url := before + Placeholder(key) + after;
    IndexOfAfterPrefix(before, Placeholder(key), after);
    assert url[..|before|] == before;
    assert url[|before| + |Placeholder(key)|..] == after;
  }

  /** Matching is on plain text, not on path segments: the key `id` also fills
      the first three characters of a `:identifier` placeholder. */
  lemma IdMatchesIdentifierPrefix(before: string, n: int)
    requires ':' !in before
    ensures Step(before + ":identifier", ("id", Number(n))) == before + IntToDecimal(n) + "entifier"
  {
    var rest := "entifier";
    assert Placeholder("id") + rest == ":identifier";
    ReplacesFirstOccurrence(before, "id", rest, Number(n));
    assert before + ":identifier" == before + Placeholder("id") + rest;
  }

  /** Values are put in as `String.prototype.replace` reads them: a value `$&`
      stands for the matched placeholder, so the url keeps its placeholder. */
  lemma DollarAmpersandValueKeepsPlaceholder(key: string)
    ensures Step(Placeholder(key), (key, Text("$&"))) == Placeholder(key)
  {
    var url := Placeholder(key);
    IndexOfAfterPrefix([], url, []);
    assert [] + url + [] == url;
    assert OccursAt(url, url, 0);
    assert Substitute(url, [], [], "$&"[2..]) == [];
  }
}
