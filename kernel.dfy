/** src/hurag_webui/kernel.py: the `Tree` that turns a loaded YAML mapping
    into nested attribute objects, and the memoised `conf()` and `logger()`.
    A loaded YAML document is the value `Yaml`; reading the file is a
    parameter. */
module Kernel {
  import opened Wrappers

  /** A value as `yaml.safe_load` returns it. Mappings keep the order of
      their keys; only string keys are modelled, since `setattr` requires
      them. */
  datatype Yaml =
    | YNull
    | YBool(b: bool)
    | YInt(i: int)
    | YStr(s: string)
    | YList(items: seq<Yaml>)
    | YDict(entries: seq<Entry>)

  datatype Entry = Entry(key: string, value: Yaml)

  /** Python falsiness of a loaded value: `None`, `False`, `0`, `""`, `[]`
      and `{}`. */
  predicate Falsy(y: Yaml) {
    y == YNull || y == YBool(false) || y == YInt(0) || y == YStr("") || y == YList([]) || y == YDict([])
  }

  /** One attribute of a `Tree`: a plain value, or a nested `Tree` for a
      mapping. */
  datatype Attr = Plain(v: Yaml) | Sub(t: Tree)

  /** The attributes of a `Tree` object, by name. */
  datatype Tree = Tree(attrs: map<string, Attr>)

  /** The attribute a value becomes. */
  function AttrOf(v: Yaml): Attr
    decreases v, 1
  {
    if v.YDict? then Sub(TreeOf(v.entries)) else Plain(v)
  }

  /** `Tree(data)`: one `setattr` per item, in order, so a later item with
      the same key overrides an earlier one. */
  function TreeOf(entries: seq<Entry>): Tree
    decreases entries, 0
  {
    if entries == [] then Tree(map[])
    else
      var last := entries[|entries| - 1];
      var before := TreeOf(entries[..|entries| - 1]);
      Tree(before.attrs[last.key := AttrOf(last.value)])
  }

  /** `Tree.__init__`: the loop over `data.items()`, recursing on mapping
      values. */
  method NewTree(entries: seq<Entry>) returns (t: Tree)
    ensures t == TreeOf(entries)
    decreases entries
  {
    t := Tree(map[]);
    var i := 0;
    while i < |entries|
      invariant 0 <= i <= |entries|
      invariant t == TreeOf(entries[..i])
    {
      var e := entries[i];
      var a: Attr;
      if e.value.YDict? {
        var sub := NewTree(e.value.entries);
        a := Sub(sub);
      } else {
        a := Plain(e.value);
      }
      assert entries[..i + 1][..i] == entries[..i];
      t := Tree(t.attrs[e.key := a]);
      i := i + 1;
    }
    assert entries[..|entries|] == entries;
  }

  predicate HasKey(entries: seq<Entry>, k: string) {
    exists i :: 0 <= i < |entries| && entries[i].key == k
  }

  /** The value of the last item with key `k`. */
  function LastValue(entries: seq<Entry>, k: string): Yaml
    requires HasKey(entries, k)
  {
    if entries[|entries| - 1].key == k then entries[|entries| - 1].value
    else
      var front := entries[..|entries| - 1];
      assert HasKey(front, k) by {
        var i :| 0 <= i < |entries| && entries[i].key == k;
        assert i < |entries| - 1 && front[i].key == k;
      }
      LastValue(front, k)
  }

  /** A `Tree` has exactly one attribute per key of the mapping; a mapping
      value becomes a nested `Tree` of that mapping, and every other value
      (a list of mappings included) is stored unchanged. */
  lemma {:induction false} TreeOfSpec(entries: seq<Entry>)
    ensures forall k :: k in TreeOf(entries).attrs <==> HasKey(entries, k)
    ensures forall k :: HasKey(entries, k) ==> TreeOf(entries).attrs[k] == AttrOf(LastValue(entries, k))
  {
    if entries != [] {
      var front := entries[..|entries| - 1];
      var last := entries[|entries| - 1];
      TreeOfSpec(front);
      forall k
        ensures HasKey(entries, k) <==> HasKey(front, k) || k == last.key
      {
        if HasKey(entries, k) && k != last.key {
          var i :| 0 <= i < |entries| && entries[i].key == k;
          assert front[i].key == k;
        }
        if HasKey(front, k) {
          var i :| 0 <= i < |front| && front[i].key == k;
          assert entries[i].key == k;
        }
        if k == last.key {
          assert entries[|entries| - 1].key == k;
        }
      }
    }
  }

  /** Non-mapping values, lists of mappings included, are stored as they are. */
  lemma PlainValuesKept(v: Yaml)
    requires !v.YDict?
    ensures AttrOf(v) == Plain(v)
  {
  }

  /** The memoised `conf()`: the file's document when the file exists (an
      empty document, `None`, counts as `{}`). A document that is not a
      mapping fails in `data.items()`. */
  function ConfFromFile(file: Option<Yaml>): (r: Result<Tree>)
    ensures file.None? || file == Some(YNull) ==> r == Ok(Tree(map[]))
    ensures file.Some? && file.value.YDict? ==> r == Ok(TreeOf(file.value.entries))
  {
    match file
    case None => Ok(Tree(map[]))
    case Some(doc) =>
      // `yaml.safe_load(f) or {}`: every falsy document becomes `{}`.
      var d := if Falsy(doc) then YDict([]) else doc;
      if d.YDict? then Ok(TreeOf(d.entries)) else Err(AttributeError("items"))
  }

  /** A missing or empty configuration yields a `Tree` with no attributes. */
  lemma EmptyConfig(file: Option<Yaml>)
    requires file.None? || file == Some(YNull) || file == Some(YDict([]))
    ensures ConfFromFile(file) == Ok(Tree(map[]))
  {
  }

  type LoggerId = nat

  /** The two `lru_cache(maxsize=1)` caches of the module. */
  class Kernel {
    var confCache: Option<Result<Tree>>
    var loggerCache: Option<LoggerId>

    constructor ()
      ensures confCache == None && loggerCache == None
    {
      confCache := None;
      loggerCache := None;
    }

    /** `conf()`: the first call reads the file (`file`); later calls
        return the cached value and ignore the file. A call that raises is
        not cached. */
    method Conf(file: Option<Yaml>) returns (r: Result<Tree>)
      modifies this
      ensures old(confCache).Some? ==> r == old(confCache).value && confCache == old(confCache)
      ensures old(confCache).None? ==>
        r == ConfFromFile(file) && confCache == (if r.Ok? then Some(r) else None)
      ensures loggerCache == old(loggerCache)
    {
      if confCache.Some? {
        return confCache.value;
      }
      r := ConfFromFile(file);
      if r.Ok? {
        confCache := Some(r);
      }
    }

    /** `logger()`: configured once; `made` is the logger the first call
        configures. */
    method Logger(made: LoggerId) returns (l: LoggerId)
      modifies this
      ensures old(loggerCache).Some? ==> l == old(loggerCache).value && loggerCache == old(loggerCache)
      ensures old(loggerCache).None? ==> l == made && loggerCache == Some(made)
      ensures confCache == old(confCache)
    {
      if loggerCache.Some? {
        return loggerCache.value;
      }
      loggerCache := Some(made);
      l := made;
    }
  }

  /** Two calls of `conf()` give the same configuration even when the file
      changed in between. */
  method ConfMemoised(k: Kernel, file1: Option<Yaml>, file2: Option<Yaml>) returns (c1: Result<Tree>, c2: Result<Tree>)
    modifies k
    ensures c1.Ok? ==> c2 == c1
  {
    c1 := k.Conf(file1);
    c2 := k.Conf(file2);
  }
}
