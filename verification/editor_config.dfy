/**
 * The editor configuration and its normalisation for the `divarea`
 * interface type (`ensureDivareaPlugin` and the guarded call in `createEditor`).
 */
module EditorConfig {
  import opened Optional
  import opened PluginLists

  /** The plugin that gives the `divarea` interface type its fixed UI. */
  const Divarea: string := "divarea"

  /** The component's `type` input; anything but `inline` is created by replacing the element. */
  datatype EditorType = Classic | Inline | DivareaType

  /** The `type` a component starts with. */
  const DefaultType: EditorType := Classic

  /**
   * An editor configuration object: the two plugin-list keys, and every other
   * key with its value. A missing key and one holding `undefined` are both `None`.
   */
  datatype Config<V> = Config(extraPlugins: Option<PluginList>, removePlugins: Option<PluginList>, rest: map<string, V>)

  /** `{}`. */
  function EmptyConfig<V>(): Config<V> {
    Config(None, None, map[])
  }

  /** A normalised configuration, and whether the `removePlugins` warning was written to the console. */
  datatype Normalized<V> = Normalized(config: Config<V>, warned: bool)

  /** The entries of an optional list; a missing list has none. */
  function EntriesOf(p: Option<PluginList>): seq<string> {
    if p.None? then [] else Entries(p.value)
  }

  /** `removePlugin(extraPlugins, 'divarea') || ''`: what is kept of `extraPlugins`, in its own form. */
  function KeptPlugins(p: Option<PluginList>): (r: PluginList)
    ensures r.List? <==> p.Some? && p.value.List?
    ensures r.List? ==> r.items == Filter(p.value.items, Divarea)
    ensures r.Str? && Filter(EntriesOf(p), Divarea) == [] ==> r == Str("")
    ensures r.Str? && Filter(EntriesOf(p), Divarea) != [] ==> Split(r.text) == Filter(EntriesOf(p), Divarea)
  {
    var kept := RemovePlugin(p, Divarea);
    if Truthy(kept) then kept.value else Str("")
  }

  /**
   * `ensureDivareaPlugin(config)`: a fresh configuration whose `extraPlugins`
   * ends in `divarea`, whose `removePlugins` lost its `divarea` entries when
   * it mentioned `divarea` (with a warning), and whose other keys are copied.
   */
  function EnsureDivareaPlugin<V>(config: Config<V>): (r: Normalized<V>)
    ensures r.config.rest == config.rest
    ensures r.config.extraPlugins.Some?
    ensures r.config.extraPlugins.value.List? <==> config.extraPlugins.Some? && config.extraPlugins.value.List?
    ensures r.warned <==> Truthy(config.removePlugins) && Includes(config.removePlugins.value, Divarea)
    ensures !r.warned ==> r.config.removePlugins == config.removePlugins
    ensures r.warned ==> r.config.removePlugins == RemovePlugin(config.removePlugins, Divarea)
  {
    var extra := match KeptPlugins(config.extraPlugins)
      case Str(s) => Str(s + "," + Divarea)
      case List(xs) => List(xs + [Divarea]);
    var warned := Truthy(config.removePlugins) && Includes(config.removePlugins.value, Divarea);
    var removed := if warned then RemovePlugin(config.removePlugins, Divarea) else config.removePlugins;
    Normalized(Config(Some(extra), removed, config.rest), warned)
  }

  /** The part of `createEditor` that touches the configuration: only the `divarea` type normalises it. */
  function PrepareConfig<V>(t: EditorType, config: Option<Config<V>>): (r: Option<Normalized<V>>)
    ensures r.Some? <==> t == DivareaType
    ensures r.Some? ==> r.value == EnsureDivareaPlugin(config.GetOr(EmptyConfig()))
  {
    if t == DivareaType then Some(EnsureDivareaPlugin(config.GetOr(EmptyConfig()))) else None
  }

  // ---------------------------------------------------------------------
  // Properties of the normalisation

  /** How often `x` occurs in `xs`. */
  function Count(xs: seq<string>, x: string): nat {
    multiset(xs)[x]
  }

  /** A list that ends in its only `divarea`. */
  lemma EndsInOnlyDivarea(before: seq<string>, e: seq<string>)
    requires Divarea !in before
    requires e == before + [Divarea]
    ensures |e| >= 1 && e[|e| - 1] == Divarea && e[..|e| - 1] == before
    ensures Count(e, Divarea) == 1
  {
    assert e[..|e| - 1] == before;
    assert multiset(e) == multiset(before) + multiset{Divarea};
  }

  /** The list form of `extraPlugins` gains `divarea` as a new last element. */
  lemma ExtraPluginsListForm<V>(config: Config<V>)
    requires config.extraPlugins.Some? && config.extraPlugins.value.List?
    ensures EntriesOf(EnsureDivareaPlugin(config).config.extraPlugins)
              == Filter(config.extraPlugins.value.items, Divarea) + [Divarea]
  {
  }

  /** The string form (or a missing list) gains `",divarea"`, a new last entry. */
  lemma ExtraPluginsStringForm<V>(config: Config<V>)
    requires !(config.extraPlugins.Some? && config.extraPlugins.value.List?)
    ensures EntriesOf(EnsureDivareaPlugin(config).config.extraPlugins) == Split(KeptPlugins(config.extraPlugins).text) + [Divarea]
  {
    var s := KeptPlugins(config.extraPlugins).text;
    assert EnsureDivareaPlugin(config).config.extraPlugins == Some(Str(s + "," + Divarea));
    SplitAppend(s, Divarea);
    SplitNoComma(Divarea);
  }

  /** What is kept of a string or missing `extraPlugins`: its other entries, or one empty entry when none are left. */
  lemma KeptPluginsEntries(p: Option<PluginList>)
    requires !(p.Some? && p.value.List?)
    ensures var kept := Filter(EntriesOf(p), Divarea);
      Split(KeptPlugins(p).text) == kept || (kept == [] && Split(KeptPlugins(p).text) == [""])
  {
    var kept := Filter(EntriesOf(p), Divarea);
    var k := RemovePlugin(p, Divarea);
    assert Split("") == [""];
    if Truthy(k) {
      SplitJoin(kept);
    } else if p.Some? && p.value.text != "" {
      assert k.value.text == "";
    }
  }

  /**
   * Afterwards `extraPlugins` holds exactly one `divarea` entry, as its last
   * entry, and before it the original entries other than `divarea` in their
   * order (the string form starts with an empty entry when nothing was kept).
   */
  lemma ExtraPluginsEndInDivarea<V>(config: Config<V>)
    ensures var e := EntriesOf(EnsureDivareaPlugin(config).config.extraPlugins);
      var kept := Filter(EntriesOf(config.extraPlugins), Divarea);
      && |e| >= 1
      && e[|e| - 1] == Divarea
      && Count(e, Divarea) == 1
      && (e[..|e| - 1] == kept || (kept == [] && e[..|e| - 1] == [""]))
  {
    var e := EntriesOf(EnsureDivareaPlugin(config).config.extraPlugins);
    var kept := Filter(EntriesOf(config.extraPlugins), Divarea);
    if config.extraPlugins.Some? && config.extraPlugins.value.List? {
      ExtraPluginsListForm(config);
      EndsInOnlyDivarea(kept, e);
    } else {
      ExtraPluginsStringForm(config);
      KeptPluginsEntries(config.extraPlugins);
      EndsInOnlyDivarea(Split(KeptPlugins(config.extraPlugins).text), e);
    }
  }

  /**
   * Afterwards `removePlugins` has no `divarea` entry, whether or not the
   * warning was issued: the substring guard fires whenever an entry is `divarea`.
   */
  lemma RemovePluginsLoseDivarea<V>(config: Config<V>)
    ensures Divarea !in EntriesOf(EnsureDivareaPlugin(config).config.removePlugins)
  {
    if config.removePlugins.Some? && Divarea in Entries(config.removePlugins.value) {
      IncludesEveryEntry(config.removePlugins.value, Divarea);
    }
  }

  /** When `removePlugins` was warned about, its other entries survive in their order. */
  lemma RemovePluginsKeepOthers<V>(config: Config<V>)
    requires EnsureDivareaPlugin(config).warned
    requires Filter(Entries(config.removePlugins.value), Divarea) != []
    ensures EntriesOf(EnsureDivareaPlugin(config).config.removePlugins)
              == Filter(Entries(config.removePlugins.value), Divarea)
  {
  }

  /**
   * The substring guard also fires on an entry that merely ends in `divarea`
   * (`"mydivarea"`, say): a warning, and nothing removed.
   */
  lemma WarnsWithoutDivareaEntry<V>(config: Config<V>, prefix: string)
    requires prefix != "" && ',' !in prefix
    requires config.removePlugins == Some(Str(prefix + Divarea))
    ensures var r := EnsureDivareaPlugin(config);
      r.warned && r.config.removePlugins == config.removePlugins
  {
    var m := prefix + Divarea;
    assert OccursAt(m, Divarea, |prefix|) by { assert m[|prefix|..][..|Divarea|] == Divarea; }
    assert Includes(Str(m), Divarea);
    NoCommaInSuffixed(prefix);
    KeepsOtherEntry(m);
  }

  /** Appending `divarea` adds no comma. */
  lemma NoCommaInSuffixed(prefix: string)
    requires ',' !in prefix
    ensures ',' !in prefix + Divarea
  {
    assert Divarea == "divarea" && ',' !in Divarea;
  }

  /** A single entry other than `divarea` survives `removePlugin(..., 'divarea')` unchanged. */
  lemma KeepsOtherEntry(m: string)
    requires ',' !in m && m != Divarea && m != ""
    ensures RemovePlugin(Some(Str(m)), Divarea) == Some(Str(m))
  {
    SplitNoComma(m);
    FilterAbsent([m], Divarea);
    assert Join([m]) == m;
  }

  /**
   * The end-to-end example: `removePlugins: "divarea,<other>"` and no
   * `extraPlugins` give `extraPlugins: ",divarea"` and `removePlugins: "<other>"`,
   * with a warning, whatever the other keys.
   */
  lemma NormalizesExample<V>(config: Config<V>, other: string)
    requires ',' !in other && other != Divarea
    requires config.extraPlugins.None? && config.removePlugins == Some(Str(Divarea + "," + other))
    ensures var r := EnsureDivareaPlugin(config);
      && r.warned
      && r.config == Config(Some(Str("," + Divarea)), Some(Str(other)), config.rest)
  {
    IncludesLeadingEntry(Divarea, "," + other);
    assert Divarea + "," + other == Divarea + ("," + other);
    DropsLeadingDivarea(other);
    ExtraPluginsWhenMissing(config);
  }

  /** A missing `extraPlugins` becomes `",divarea"`: `'' + ',divarea'`. */
  lemma ExtraPluginsWhenMissing<V>(config: Config<V>)
    requires config.extraPlugins.None?
    ensures EnsureDivareaPlugin(config).config.extraPlugins == Some(Str("," + Divarea))
  {
    assert KeptPlugins(config.extraPlugins) == Str("");
    assert "" + "," + Divarea == "," + Divarea;
  }

  /** `removePlugin("divarea,<other>", 'divarea')` is `"<other>"`. */
  lemma DropsLeadingDivarea(other: string)
    requires ',' !in other && other != Divarea
    ensures RemovePlugin(Some(Str(Divarea + "," + other)), Divarea) == Some(Str(other))
  {
    assert Split(Divarea + "," + other) == [Divarea, other] by {
      SplitAppend(Divarea, other);
      SplitNoComma(Divarea);
      SplitNoComma(other);
    }
    assert Filter([Divarea, other], Divarea) == [other] by {
      assert [Divarea, other][1..] == [other];
      FilterAbsent([other], Divarea);
    }
    assert Join([other]) == other;
  }
}
