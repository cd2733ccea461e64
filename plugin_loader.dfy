/**
 * `get_template` of the plugin loader: every plugin folder's
 * `template_map.json` is merged into the main template map, then a template
 * is looked up for a layout.
 */
module PluginLoader {
  import opened Wrappers

  /** A `[module, class]` pair naming a template class. */
  datatype TemplateRef = TemplateRef(moduleName: string, className: string)

  /** One layout's entry: its `other` templates by name and its `default`, either of which may be missing. */
  datatype LayoutEntry = LayoutEntry(other: Option<map<string, TemplateRef>>, defaultRef: Option<TemplateRef>)

  /** The main template map, layout name to entry. */
  type TemplateMap = map<string, LayoutEntry>

  /**
   * A plugin folder's `template_map.json`: none in the folder, a file
   * `json.load` rejects, or the decoded value, which is the object key by key
   * in file order or None when it is not an object (then `j.keys()` raises
   * inside the `try`).
   */
  datatype MapFile = NoMapFile | Unparsable | Decoded(value: Option<seq<(string, LayoutEntry)>>)

  /** The keys the merge loop iterates over: only a decoded object has any. */
  function MapItems(file: MapFile): (r: Option<seq<(string, LayoutEntry)>>)
    ensures r.Some? <==> file.Decoded? && file.value.Some?
  {
    if file.Decoded? then file.value else None
  }

  /** One entry of the plugin folder listing: its name, its map file and whether it holds a `config.ini`. */
  datatype Folder = Folder(stem: string, templateMap: MapFile, hasConfig: bool)

  /**
   * The `config.ini` of the working directory, which `conf.read` parses for
   * every folder holding one: a file that does not parse, or the
   * `CONF.Make.Default` it yields (False when the file, the section or the
   * option is missing or not a boolean, as the bare `except` gives).
   */
  datatype CwdConfig = ConfigUnparsable | ConfigRead(makeDefault: bool)

  /** The `make_default` a folder with a `config.ini` gets. */
  function MakeDefaultOf(config: CwdConfig): (r: bool)
    ensures r <==> config == ConfigRead(true)
  {
    config.ConfigRead? && config.makeDefault
  }

  /**
   * Reading a folder's files raises outside the `try`: its map does not
   * parse, or it holds a `config.ini` and the working directory's does not
   * parse. `__pycache__` is never read.
   */
  predicate FolderRaises(folder: Folder, config: CwdConfig) {
    folder.stem != "__pycache__" && (folder.templateMap.Unparsable? || (folder.hasConfig && config.ConfigUnparsable?))
  }

  /**
   * Loading raises out of `get_template`: the main `templates.json` is
   * missing or does not parse (None), or some folder's files raise.
   */
  predicate LoadRaises(mainJson: Option<TemplateMap>, folders: seq<Folder>, config: CwdConfig) {
    mainJson.None? || exists i :: 0 <= i < |folders| && FolderRaises(folders[i], config)
  }

  /** The state of the main map after one plugin: whether every key merged, or an exception stopped the loop. */
  datatype PluginMerge = PluginMerge(merged: TemplateMap, complete: bool)

  /**
   * One plugin key merged into the main map. A key already present gets the
   * plugin's `other` entries on top of its own, and the plugin's `default`
   * only under `make_default`; a new key is inserted whole. None stands for
   * the KeyError of a missing `other` on either side.
   */
  function MergeKey(main: TemplateMap, key: string, entry: LayoutEntry, makeDefault: bool): (r: Option<TemplateMap>)
    ensures r.None? <==> key in main && (main[key].other.None? || entry.other.None?)
    ensures r.Some? ==> r.value.Keys == main.Keys + {key}
    ensures r.Some? ==> forall k :: k in main && k != key ==> r.value[k] == main[k]
    ensures r.Some? && key !in main ==> r.value[key] == entry
    ensures r.Some? && key in main ==>
      && r.value[key].other == Some(main[key].other.value + entry.other.value)
      && (forall t :: t in main[key].other.value && t !in entry.other.value ==>
            r.value[key].other.value[t] == main[key].other.value[t])
      && r.value[key].defaultRef == (if entry.defaultRef.Some? && makeDefault then entry.defaultRef else main[key].defaultRef)
  {
    if key in main then
      var current := main[key];
      if current.other.None? || entry.other.None? then None
      else
        var defaultRef := if entry.defaultRef.Some? && makeDefault then entry.defaultRef else current.defaultRef;
        Some(main[key := LayoutEntry(Some(current.other.value + entry.other.value), defaultRef)])
    else Some(main[key := entry])
  }

  /** Some key of the plugin map is `k`. */
  predicate Mentions(items: seq<(string, LayoutEntry)>, k: string) {
    exists i :: 0 <= i < |items| && items[i].0 == k
  }

  /** The `for key in j.keys()` loop of one plugin: keys in order, stopping at the first that raises. */
  function MergePlugin(main: TemplateMap, items: seq<(string, LayoutEntry)>, makeDefault: bool): (r: PluginMerge)
    ensures main.Keys <= r.merged.Keys
    ensures forall k :: k in r.merged ==> k in main || Mentions(items, k)
    ensures forall k :: k in main && !Mentions(items, k) ==> r.merged[k] == main[k]
    ensures !makeDefault ==> forall k :: k in main ==> r.merged[k].defaultRef == main[k].defaultRef
    ensures forall k :: k in main && main[k].other.Some? ==>
      r.merged[k].other.Some? && main[k].other.value.Keys <= r.merged[k].other.value.Keys
    decreases |items|
  {
    if |items| == 0 then PluginMerge(main, true)
    else
      match MergeKey(main, items[0].0, items[0].1, makeDefault)
      case None => PluginMerge(main, false)
      case Some(next) =>
        var r := MergePlugin(next, items[1..], makeDefault);
        assert forall k :: Mentions(items[1..], k) ==> Mentions(items, k) by {
          forall k | Mentions(items[1..], k) ensures Mentions(items, k) {
            var i :| 0 <= i < |items[1..]| && items[1..][i].0 == k;
            assert items[i + 1].0 == k;
          }
        }
        assert forall k :: k in main && !Mentions(items, k) ==> k != items[0].0 && !Mentions(items[1..], k);
        r
  }

  /**
   * What one folder that does not raise does to the main map: `__pycache__`
   * and a folder without a map object contribute nothing.
   */
  function Contribute(main: TemplateMap, folder: Folder, cwdMakeDefault: bool): (r: TemplateMap)
    ensures main.Keys <= r.Keys
    ensures folder.stem == "__pycache__" || MapItems(folder.templateMap).None? ==> r == main
    ensures !folder.hasConfig ==> forall k :: k in main ==> r[k].defaultRef == main[k].defaultRef
  {
    if folder.stem == "__pycache__" || MapItems(folder.templateMap).None? then main
    else MergePlugin(main, MapItems(folder.templateMap).value, folder.hasConfig && cwdMakeDefault).merged
  }

  /** The `for folder in folders` loop, folder by folder. */
  function MergeFolders(main: TemplateMap, folders: seq<Folder>, cwdMakeDefault: bool): (r: TemplateMap)
    ensures main.Keys <= r.Keys
    ensures !cwdMakeDefault ==> forall k :: k in main ==> r[k].defaultRef == main[k].defaultRef
    decreases |folders|
  {
    if |folders| == 0 then main
    else MergeFolders(Contribute(main, folders[0], cwdMakeDefault), folders[1..], cwdMakeDefault)
  }

  /**
   * The template `get_template` picks, before the import: none for an
   * unknown layout, a reference, a KeyError of the lookup, or an exception
   * raised while the maps were loaded.
   */
  datatype Selection = NoLayout | Selected(ref: TemplateRef) | SelectionFailed | LoadFailed

  /**
   * The lookup of lines 57-61: an unknown layout gives None, a template named
   * in `other` gives that entry, anything else the layout's `default`. A
   * missing `other` or `default` raises KeyError out of `get_template`.
   */
  function SelectTemplate(m: TemplateMap, template: string, layout: string): (r: Selection)
    ensures r != LoadFailed
    ensures r == NoLayout <==> layout !in m
    ensures layout in m && m[layout].other.Some? && template in m[layout].other.value ==>
      r == Selected(m[layout].other.value[template])
    ensures layout in m && m[layout].other.Some? && template !in m[layout].other.value ==>
      r == (if m[layout].defaultRef.Some? then Selected(m[layout].defaultRef.value) else SelectionFailed)
    ensures layout in m && m[layout].other.None? ==> r == SelectionFailed
  {
    if layout !in m then NoLayout
    else
      var entry := m[layout];
      if entry.other.None? then SelectionFailed
      else if template in entry.other.value then Selected(entry.other.value[template])
      else if entry.defaultRef.Some? then Selected(entry.defaultRef.value)
      else SelectionFailed
  }

  /**
   * The inner loop over one plugin's keys, updating the main map in place
   * until a key raises.
   */
  method MergePluginKeys(main0: TemplateMap, items: seq<(string, LayoutEntry)>, makeDefault: bool)
    returns (main: TemplateMap)
    ensures main == MergePlugin(main0, items, makeDefault).merged
  {
    main := main0;
    var i := 0;
    while i < |items|
      invariant 0 <= i <= |items|
      invariant MergePlugin(main, items[i..], makeDefault).merged == MergePlugin(main0, items, makeDefault).merged
    {
      assert items[i..][1..] == items[i + 1..];
      var merged := MergeKey(main, items[i].0, items[i].1, makeDefault);
      if merged.None? {
        return;
      }
      main := merged.value;
      i := i + 1;
    }
  }

  /**
   * `get_template`: the merge loop over the folders on a local copy of the
   * main map, then the selection. The listing, the files and the working
   * directory's `config.ini` are inputs; a file that fails to load ends the
   * call with its exception.
   */
  method GetTemplate(mainJson: Option<TemplateMap>, folders: seq<Folder>, config: CwdConfig, template: string, layout: string)
    returns (sel: Selection)
    ensures sel == LoadFailed <==> LoadRaises(mainJson, folders, config)
    ensures !LoadRaises(mainJson, folders, config) ==>
      sel == SelectTemplate(MergeFolders(mainJson.value, folders, MakeDefaultOf(config)), template, layout)
  {
    if mainJson.None? {
      return LoadFailed;
    }
    var cwdMakeDefault := MakeDefaultOf(config);
    var main := mainJson.value;
    var f := 0;
    while f < |folders|
      invariant 0 <= f <= |folders|
      invariant forall j :: 0 <= j < f ==> !FolderRaises(folders[j], config)
      invariant MergeFolders(main, folders[f..], cwdMakeDefault) == MergeFolders(mainJson.value, folders, cwdMakeDefault)
    {
      assert folders[f..][1..] == folders[f + 1..];
      var folder := folders[f];
      if folder.stem != "__pycache__" {
        if folder.templateMap.Unparsable? || (folder.hasConfig && config.ConfigUnparsable?) {
          return LoadFailed;
        }
        var items := MapItems(folder.templateMap);
        if items.Some? {
          main := MergePluginKeys(main, items.value, folder.hasConfig && cwdMakeDefault);
        }
      }
      f := f + 1;
    }
    sel := SelectTemplate(main, template, layout);
  }

  /**
   * Merging a concatenation merges the first part, then, only if nothing
   * raised, the second part into the result.
   */
  lemma {:induction false} MergePluginAppend(main: TemplateMap, a: seq<(string, LayoutEntry)>, b: seq<(string, LayoutEntry)>, makeDefault: bool)
    ensures var first := MergePlugin(main, a, makeDefault);
      MergePlugin(main, a + b, makeDefault) == if first.complete then MergePlugin(first.merged, b, makeDefault) else first
    decreases |a|
  {
    if |a| == 0 {
      assert a + b == b;
    } else {
      assert (a + b)[0] == a[0];
      assert (a + b)[1..] == a[1..] + b;
      match MergeKey(main, a[0].0, a[0].1, makeDefault)
      case None =>
      case Some(next) => MergePluginAppend(next, a[1..], b, makeDefault);
    }
  }

  /**
   * A malformed entry stops the rest of the plugin: the keys merged before it
   * stay merged and nothing after it is applied.
   */
  lemma MalformedEntryStopsPlugin(main: TemplateMap, before: seq<(string, LayoutEntry)>, key: string, entry: LayoutEntry,
                                  after: seq<(string, LayoutEntry)>, makeDefault: bool)
    requires MergePlugin(main, before, makeDefault).complete
    requires var m := MergePlugin(main, before, makeDefault).merged;
      key in m && (m[key].other.None? || entry.other.None?)
    ensures MergePlugin(main, before + [(key, entry)] + after, makeDefault)
         == PluginMerge(MergePlugin(main, before, makeDefault).merged, false)
  {
    MergePluginAppend(main, before, [(key, entry)] + after, makeDefault);
    assert before + [(key, entry)] + after == before + ([(key, entry)] + after);
  }

  /** The keys of a plugin map are pairwise distinct, as in a JSON object. */
  predicate DistinctKeys(items: seq<(string, LayoutEntry)>) {
    forall i, j :: 0 <= i < j < |items| ==> items[i].0 != items[j].0
  }

  /** Every key of the plugin that the main map already has can be merged: both sides carry `other`. */
  predicate WellFormedAgainst(main: TemplateMap, items: seq<(string, LayoutEntry)>) {
    forall i :: 0 <= i < |items| && items[i].0 in main ==> main[items[i].0].other.Some? && items[i].1.other.Some?
  }

  /**
   * A well-formed plugin with distinct keys merges completely: each key
   * already in the main map gains the plugin's `other` entries and takes its
   * `default` only under `make_default`, and each new key is inserted whole.
   */
  lemma {:induction false} WellFormedPluginMerges(main: TemplateMap, items: seq<(string, LayoutEntry)>, makeDefault: bool)
    requires DistinctKeys(items) && WellFormedAgainst(main, items)
    ensures var r := MergePlugin(main, items, makeDefault);
      && r.complete
      && forall i :: 0 <= i < |items| ==>
        var (k, e) := items[i];
        && k in r.merged
        && (k !in main ==> r.merged[k] == e)
        && (k in main ==>
              && r.merged[k].other == Some(main[k].other.value + e.other.value)
              && r.merged[k].defaultRef == (if e.defaultRef.Some? && makeDefault then e.defaultRef else main[k].defaultRef))
    decreases |items|
  {
    if |items| > 0 {
      var (k0, e0) := items[0];
      var next := MergeKey(main, k0, e0, makeDefault).value;
      var rest := items[1..];
      assert forall i :: 0 <= i < |rest| ==> rest[i] == items[i + 1];
      assert forall i :: 0 <= i < |rest| ==> rest[i].0 != k0;
      assert WellFormedAgainst(next, rest) by {
        forall i | 0 <= i < |rest| && rest[i].0 in next
          ensures next[rest[i].0].other.Some? && rest[i].1.other.Some?
        {
          assert items[i + 1] == rest[i];
        }
      }
      WellFormedPluginMerges(next, rest, makeDefault);
      var r := MergePlugin(next, rest, makeDefault);
      assert !Mentions(rest, k0);
      assert r.merged[k0] == next[k0];
      forall i | 0 <= i < |items|
        ensures var (k, e) := items[i];
          && k in r.merged
          && (k !in main ==> r.merged[k] == e)
          && (k in main ==>
                && r.merged[k].other == Some(main[k].other.value + e.other.value)
                && r.merged[k].defaultRef == (if e.defaultRef.Some? && makeDefault then e.defaultRef else main[k].defaultRef))
      {
        if i > 0 {
          assert items[i] == rest[i - 1];
          assert items[i].0 != k0;
          assert items[i].0 in main <==> items[i].0 in next;
        }
      }
    }
  }

  /**
   * Selection after the merge: with a plugin that merged completely and
   * named the requested template for the layout, that entry is selected.
   */
  lemma PluginTemplateSelected(main: TemplateMap, items: seq<(string, LayoutEntry)>, makeDefault: bool,
                               i: nat, template: string)
    requires DistinctKeys(items) && WellFormedAgainst(main, items)
    requires i < |items| && items[i].1.other.Some? && template in items[i].1.other.value
    ensures SelectTemplate(MergePlugin(main, items, makeDefault).merged, template, items[i].0)
         == Selected(items[i].1.other.value[template])
  {
    WellFormedPluginMerges(main, items, makeDefault);
  }
}
