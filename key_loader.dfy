/**
 * The API key file loader (hexstrike_api_loader.py): a file of `KEY=VALUE`
 * lines becomes a map. Blank lines and lines starting with `#` are skipped,
 * as are lines without `=`; a line is split at its first `=`, both sides are
 * trimmed, and a later line overwrites an earlier one with the same key.
 * Reading the file is left to the caller: the file is `None` when it does
 * not exist and otherwise the sequence of its lines.
 */
module KeyLoader {
  import opened Wrappers
  import opened Text

  /**
   * What one line of the file contributes: nothing for a blank line, a
   * comment or a line without `=`, and otherwise the trimmed text before the
   * first `=` as key and the trimmed text after it as value.
   */
  function ParseLine(line: string): (r: Option<(string, string)>)
    ensures r.None? <==> (var t := Strip(line); t == [] || t[0] == '#' || '=' !in t)
  {
    var t := Strip(line);
    if t == [] || t[0] == '#' then None
    else match FirstIndex(t, '=')
      case None => None
      case Some(i) =>
        StripAddsNothing(t[..i], '=');
        Some((Strip(t[..i]), Strip(t[i + 1..])))
  }

  /**
   * A line whose trimmed text is `pre=post`, with no `=` in `pre` and not a
   * comment, defines the key `pre` and the value `post`, both trimmed: the
   * split is at the first `=`, so the value keeps any later `=`.
   */
  lemma SplitAtFirstEquals(line: string, pre: string, post: string)
    requires Strip(line) == pre + "=" + post
    requires '=' !in pre
    requires Strip(line)[0] != '#'
    ensures ParseLine(line) == Some((Strip(pre), Strip(post)))
  {
    var t := Strip(line);
    assert t[..|pre|] == pre;
    FirstIndexAt(t, '=', |pre|);
    assert t[|pre| + 1..] == post;
  }

  /** The key a line defines, if any. */
  function KeyOf(line: string): Option<string> {
    match ParseLine(line)
    case None => None
    case Some((k, _)) => Some(k)
  }

  /** The map the loader builds from `lines`, read from first to last. */
  function ParseLines(lines: seq<string>): (m: map<string, string>)
  {
    if lines == [] then map[]
    else
      var m := ParseLines(lines[..|lines| - 1]);
      match ParseLine(lines[|lines| - 1])
      case None => m
      case Some((k, v)) => m[k := v]
  }

  /** Reading one more line applies that line's contribution to the map read so far. */
  lemma ParseLinesStep(lines: seq<string>, n: nat)
    requires n < |lines|
    ensures ParseLines(lines[..n + 1]) ==
      match ParseLine(lines[n])
      case None => ParseLines(lines[..n])
      case Some((k, v)) => ParseLines(lines[..n])[k := v]
  {
    assert lines[..n + 1][..n] == lines[..n];
  }

  /** load_api_keys: the map of a missing file is empty, and of a present one is `ParseLines` of its lines. */
  method LoadApiKeys(file: Option<seq<string>>) returns (keys: map<string, string>)
    ensures file.None? ==> keys == map[]
    ensures file.Some? ==> keys == ParseLines(file.value)
  {
    keys := map[];
    if file.None? {
      return;
    }
    var lines := file.value;
    var n := 0;
    while n < |lines|
      invariant 0 <= n <= |lines|
      invariant keys == ParseLines(lines[..n])
    {
      ParseLinesStep(lines, n);
      var line := Strip(lines[n]);
      if line != [] && line[0] != '#' {
        var eq := FirstIndex(line, '=');
        if eq.Some? {
          var k, v := line[..eq.value], line[eq.value + 1..];
          keys := keys[Strip(k) := Strip(v)];
        }
      }
      n := n + 1;
    }
    assert lines[..n] == lines;
  }

  /** Each line defines at most one key, so the map has no more keys than the file has lines. */
  lemma {:induction false} AtMostOneKeyPerLine(lines: seq<string>)
    ensures |ParseLines(lines)| <= |lines|
  {
    if lines != [] {
      AtMostOneKeyPerLine(lines[..|lines| - 1]);
    }
  }

  /** A line that contributes nothing can be removed anywhere without changing the map. */
  lemma {:induction false} IgnoredLineIrrelevant(before: seq<string>, line: string, after: seq<string>)
    requires ParseLine(line).None?
    ensures ParseLines(before + [line] + after) == ParseLines(before + after)
  {
    var xs, ys := before + [line] + after, before + after;
    if after == [] {
      var n := |before|;
      assert xs[..n + 1] == xs && xs[..n] == before == ys && xs[n] == line;
      ParseLinesStep(xs, n);
    } else {
      var init := after[..|after| - 1];
      var n, m := |xs| - 1, |ys| - 1;
      assert xs[..n + 1] == xs && xs[..n] == before + [line] + init;
      assert ys[..m + 1] == ys && ys[..m] == before + init && xs[n] == ys[m];
      ParseLinesStep(xs, n);
      ParseLinesStep(ys, m);
      IgnoredLineIrrelevant(before, line, init);
    }
  }

  /** Every key of the map, with its value, comes from some line of the file. */
  lemma {:induction false} KeyFromSomeLine(lines: seq<string>, k: string)
    requires k in ParseLines(lines)
    ensures exists i :: 0 <= i < |lines| && ParseLine(lines[i]) == Some((k, ParseLines(lines)[k]))
  {
    var init := lines[..|lines| - 1];
    var last := lines[|lines| - 1];
    if ParseLine(last).Some? && ParseLine(last).value.0 == k {
      assert ParseLine(lines[|lines| - 1]) == Some((k, ParseLines(lines)[k]));
    } else {
      KeyFromSomeLine(init, k);
      var i :| 0 <= i < |init| && ParseLine(init[i]) == Some((k, ParseLines(init)[k]));
      assert lines[i] == init[i];
    }
  }

  /** The value of a key is the one on the last line that defines that key. */
  lemma {:induction false} LastLineWins(lines: seq<string>, i: nat, k: string, v: string)
    requires i < |lines| && ParseLine(lines[i]) == Some((k, v))
    requires forall j :: i < j < |lines| ==> KeyOf(lines[j]) != Some(k)
    ensures k in ParseLines(lines) && ParseLines(lines)[k] == v
  {
    var init := lines[..|lines| - 1];
    if i < |lines| - 1 {
      assert KeyOf(lines[|lines| - 1]) != Some(k);
      forall j | i < j < |init| ensures KeyOf(init[j]) != Some(k) {
        assert init[j] == lines[j];
      }
      LastLineWins(init, i, k, v);
    }
  }

  /** A pair read from a line has no `=` in its key, and key and value are trimmed. */
  lemma ParsedPairIsTrimmed(line: string)
    requires ParseLine(line).Some?
    ensures var (k, v) := ParseLine(line).value; '=' !in k && IsStripped(k) && IsStripped(v)
  {
    var t := Strip(line);
    var i := FirstIndex(t, '=').value;
    StripAddsNothing(t[..i], '=');
  }

  /** Every key of the map is trimmed and free of `=`, and so is its value trimmed. */
  lemma KeysAreTrimmed(lines: seq<string>, k: string)
    requires k in ParseLines(lines)
    ensures '=' !in k && IsStripped(k) && IsStripped(ParseLines(lines)[k])
  {
    KeyFromSomeLine(lines, k);
    var i :| 0 <= i < |lines| && ParseLine(lines[i]) == Some((k, ParseLines(lines)[k]));
    ParsedPairIsTrimmed(lines[i]);
  }

  /** A value keeps every `=` after the first: `A=b=c` defines `A` as `b=c`. */
  lemma ValueMayContainEquals()
    ensures ParseLine("A=b=c") == Some(("A", "b=c"))
  {
    StripLeavesStripped("A=b=c");
    StripLeavesStripped("A");
    StripLeavesStripped("b=c");
    assert "A=b=c" == "A" + "=" + "b=c";
    SplitAtFirstEquals("A=b=c", "A", "b=c");
  }
}
