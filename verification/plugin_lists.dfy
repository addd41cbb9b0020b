/**
 * Plugin lists of the editor configuration (`extraPlugins`, `removePlugins`).
 *
 * A list is written either as one comma-separated string or as a list of
 * strings. `Split` and `Join` are JavaScript's `String.prototype.split(',')`
 * and `Array.prototype.join(',')`; `RemovePlugin` is the component's
 * `removePlugin`.
 */
module PluginLists {
  import opened Optional

  datatype PluginList = Str(text: string) | List(items: seq<string>)

  /** `s.split(',')`: the pieces between commas; never empty (`"".split(',')` is `[""]`). */
  function Split(s: string): (r: seq<string>)
    ensures |r| >= 1
    ensures forall i :: 0 <= i < |r| ==> ',' !in r[i]
    decreases |s|
  {
    if s == [] then [""]
    else
      var rest := Split(s[1..]);
      if s[0] == ',' then [""] + rest
      else [[s[0]] + rest[0]] + rest[1..]
  }

  /** `xs.join(',')`: every element occurs in the joined string; `[]` joins to `""`. */
  function Join(xs: seq<string>): (r: string)
    ensures xs == [] ==> r == ""
    ensures forall i :: 0 <= i < |xs| ==> Contains(r, xs[i])
    decreases |xs|
  {
    if |xs| == 0 then ""
    else if |xs| == 1 then
      StartsWithPrefix(xs[0], "");
      assert xs[0] + "" == xs[0];
      xs[0]
    else
      var rest := Join(xs[1..]);
      StartsWithPrefix(xs[0], "," + rest);
      assert xs[0] + "," + rest == xs[0] + ("," + rest) == (xs[0] + ",") + rest;
      ContainsSuffixAll(xs[0] + ",", rest, xs[1..]);
      xs[0] + "," + rest
  }

  /** `xs.filter(p => p !== t)`. */
  function Filter(xs: seq<string>, t: string): (r: seq<string>)
    ensures t !in r
    ensures |r| <= |xs|
    ensures forall i :: 0 <= i < |r| ==> r[i] in xs
    decreases |xs|
  {
    if xs == [] then []
    else (if xs[0] == t then [] else [xs[0]]) + Filter(xs[1..], t)
  }

  /** JavaScript truthiness of a plugin-list value: `null` and `""` are falsy, any array is truthy. */
  predicate Truthy(p: Option<PluginList>): (r: bool)
    ensures p.None? ==> !r
    ensures p.Some? && p.value.Str? ==> (r <==> |p.value.text| > 0)
    ensures p.Some? && p.value.List? ==> r
  {
    p.Some? && (p.value.Str? ==> p.value.text != "")
  }

  /** The entries of a list: the comma-separated pieces of the string form, the elements of the list form. */
  function Entries(p: PluginList): seq<string> {
    match p
    case Str(s) => Split(s)
    case List(xs) => xs
  }

  /** `s` starts with `t`. */
  predicate StartsWith(s: string, t: string) {
    |t| <= |s| && s[..|t|] == t
  }

  /** `t` occurs in `s` starting at position `i`. */
  predicate OccursAt(s: string, t: string, i: nat)
    requires i <= |s|
  {
    StartsWith(s[i..], t)
  }

  /** `s.includes(t)` on strings: `t` occurs somewhere in `s` as a substring. */
  predicate Contains(s: string, t: string): (r: bool)
    ensures r <==> exists i: nat :: i <= |s| - |t| && OccursAt(s, t, i)
    decreases |s|
  {
    assert s[0..] == s;
    if StartsWith(s, t) then
      assert OccursAt(s, t, 0);
      true
    else if |s| == 0 then false
    else
      ShiftOccurrences(s, t);
      Contains(s[1..], t)
  }

  /** `p.includes(t)`: a substring test on the string form, exact membership on the list form. */
  predicate Includes(p: PluginList, t: string): (r: bool)
    ensures p.Str? ==> (r <==> exists i: nat :: i <= |p.text| - |t| && OccursAt(p.text, t, i))
    ensures p.List? ==> (r <==> t in p.items)
  {
    match p
    case Str(s) => Contains(s, t)
    case List(xs) => t in xs
  }

  /**
   * `removePlugin(plugins, toRemove)`: a falsy input gives `null`; otherwise
   * every entry equal to `toRemove` is dropped, the others keep their order,
   * and the result has the input's form.
   */
  function RemovePlugin(plugins: Option<PluginList>, toRemove: string): (r: Option<PluginList>)
    ensures r.None? <==> !Truthy(plugins)
    ensures r.Some? ==> (r.value.Str? <==> plugins.value.Str?)
    ensures r.Some? && r.value.List? ==> r.value.items == Filter(plugins.value.items, toRemove)
    ensures r.Some? && r.value.Str? && toRemove != "" ==> toRemove !in Entries(r.value)
    ensures r.Some? && r.value.Str? && Filter(Entries(plugins.value), toRemove) != [] ==>
              Entries(r.value) == Filter(Entries(plugins.value), toRemove)
    ensures r.Some? && r.value.Str? && Filter(Entries(plugins.value), toRemove) == [] ==> r.value.text == ""
  {
    if !Truthy(plugins) then None
    else
      match plugins.value
      case Str(s) =>
        var kept := Filter(Split(s), toRemove);
        SplitJoin(kept);
        Some(Str(Join(kept)))
      case List(xs) => Some(List(Filter(xs, toRemove)))
  }

  // ---------------------------------------------------------------------
  // Split and Join

  /** A string without commas is a single piece. */
  lemma {:induction false} SplitNoComma(s: string)
    requires ',' !in s
    ensures Split(s) == [s]
    decreases |s|
  {
    if s != [] {
      assert ',' !in s[1..] by {
        forall i | 0 <= i < |s[1..]| ensures s[1..][i] != ',' { assert s[1..][i] == s[i + 1]; }
      }
      SplitNoComma(s[1..]);
      assert [s[0]] + s[1..] == s;
    }
  }

  /** Splitting at a comma splits the two sides independently. */
  lemma {:induction false} SplitAppend(a: string, b: string)
    ensures Split(a + "," + b) == Split(a) + Split(b)
    decreases |a|
  {
    if a == [] {
      assert a + "," + b == [','] + b;
      assert ([','] + b)[1..] == b;
    } else {
      var s := a + "," + b;
      assert s[0] == a[0];
      assert s[1..] == a[1..] + "," + b;
      SplitAppend(a[1..], b);
    }
  }

  /** Joining the pieces of a string gives the string back. */
  lemma {:induction false} JoinSplit(s: string)
    ensures Join(Split(s)) == s
    decreases |s|
  {
    if s != [] {
      var rest := Split(s[1..]);
      JoinSplit(s[1..]);
      if s[0] == ',' {
        if |rest| == 1 {
          assert Join([""] + rest) == "" + "," + Join(rest);
        } else {
          assert ([""] + rest)[1..] == rest;
        }
        assert s == [','] + s[1..];
      } else {
        var first := [s[0]] + rest[0];
        if |rest| == 1 {
          assert Join([first]) == first;
          assert s == [s[0]] + s[1..];
        } else {
          assert ([first] + rest[1..])[1..] == rest[1..];
          assert Join(rest) == rest[0] + "," + Join(rest[1..]);
          assert s == [s[0]] + s[1..];
        }
      }
    }
  }

  /** Splitting a join of comma-free pieces gives the pieces back (`[]` joins to `""`, which splits to `[""]`). */
  lemma {:induction false} SplitJoin(xs: seq<string>)
    requires forall i :: 0 <= i < |xs| ==> ',' !in xs[i]
    ensures xs != [] ==> Split(Join(xs)) == xs
    ensures xs == [] ==> Split(Join(xs)) == [""]
    decreases |xs|
  {
    if |xs| == 1 {
      SplitNoComma(xs[0]);
    } else if |xs| > 1 {
      SplitJoin(xs[1..]);
      SplitNoComma(xs[0]);
      SplitAppend(xs[0], Join(xs[1..]));
      assert xs == [xs[0]] + xs[1..];
    }
  }

  // ---------------------------------------------------------------------
  // Filter

  /** Filtering keeps the relative order: it distributes over concatenation. */
  lemma {:induction false} FilterAppend(xs: seq<string>, ys: seq<string>, t: string)
    ensures Filter(xs + ys, t) == Filter(xs, t) + Filter(ys, t)
    decreases |xs|
  {
    if xs != [] {
      assert (xs + ys)[1..] == xs[1..] + ys;
      FilterAppend(xs[1..], ys, t);
    } else {
      assert xs + ys == ys;
    }
  }

  /** Filtering drops every copy of `t` and keeps every other entry as many times as it occurs. */
  lemma {:induction false} FilterCounts(xs: seq<string>, t: string)
    ensures multiset(Filter(xs, t)) == multiset(xs)[t := 0]
    decreases |xs|
  {
    if xs != [] {
      FilterCounts(xs[1..], t);
      assert xs == [xs[0]] + xs[1..];
    }
  }

  /** A list without `t` is left as it is. */
  lemma {:induction false} FilterAbsent(xs: seq<string>, t: string)
    requires t !in xs
    ensures Filter(xs, t) == xs
    decreases |xs|
  {
    if xs != [] {
      assert xs == [xs[0]] + xs[1..];
      FilterAbsent(xs[1..], t);
      assert Filter(xs, t) == [xs[0]] + Filter(xs[1..], t);
    }
  }

  // ---------------------------------------------------------------------
  // Substrings

  /** A string contains its own prefix. */
  lemma StartsWithPrefix(a: string, b: string)
    ensures StartsWith(a + b, a)
  {
    assert (a + b)[..|a|] == a;
  }

  /** An occurrence after the first character is an occurrence in the tail, one position earlier. */
  lemma ShiftOccurrences(s: string, t: string)
    requires s != []
    ensures forall i: nat :: 1 <= i <= |s| ==> (OccursAt(s, t, i) <==> OccursAt(s[1..], t, i - 1))
    ensures forall j: nat :: j < |s| ==> (OccursAt(s[1..], t, j) <==> OccursAt(s, t, j + 1))
  {
    forall i: nat | 1 <= i <= |s| ensures OccursAt(s, t, i) <==> OccursAt(s[1..], t, i - 1) {
      assert s[i..] == s[1..][i - 1..];
    }
  }

  /** What a suffix contains, the whole string contains. */
  lemma {:induction false} ContainsSuffix(a: string, b: string, t: string)
    requires Contains(b, t)
    ensures Contains(a + b, t)
    decreases |a|
  {
    if a != [] {
      assert (a + b)[1..] == a[1..] + b;
      ContainsSuffix(a[1..], b, t);
    } else {
      assert a + b == b;
    }
  }

  /** What a suffix contains, the whole string contains, for a whole list of strings at once. */
  lemma ContainsSuffixAll(a: string, b: string, ys: seq<string>)
    requires forall i :: 0 <= i < |ys| ==> Contains(b, ys[i])
    ensures forall i :: 0 <= i < |ys| ==> Contains(a + b, ys[i])
  {
    forall i | 0 <= i < |ys| ensures Contains(a + b, ys[i]) {
      ContainsSuffix(a, b, ys[i]);
    }
  }

  /**
   * The guard `plugins.includes(t)` never misses an entry equal to `t`: on the
   * string form a whole entry is in particular a substring.
   */
  lemma IncludesEveryEntry(p: PluginList, t: string)
    requires t in Entries(p)
    ensures Includes(p, t)
  {
    if p.Str? {
      JoinSplit(p.text);
      assert Contains(Join(Split(p.text)), t);
    }
  }

  /** A string that starts with `t` includes it. */
  lemma IncludesLeadingEntry(t: string, rest: string)
    ensures Includes(Str(t + rest), t)
  {
    assert OccursAt(t + rest, t, 0) by { assert (t + rest)[0..][..|t|] == t; }
  }
}
