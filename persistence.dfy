/**
 * Saving a nested dictionary into an HDF5 file and loading it back.
 *
 * The file is a map from paths (the sequence of keys from the root) to the
 * datasets stored there; groups exist only implicitly, as the proper
 * prefixes of dataset paths. A dictionary is an ordered list of entries,
 * in the insertion order it is iterated in.
 */
module Persistence {
  import opened Wrappers

  /** A location in the file: the keys from the root group down. */
  type Path = seq<string>

  /** What a dictionary entry holds, as far as saving is concerned. */
  datatype Item<V> =
    | Leaf(value: V)                 // an array, a scalar, a string or bytes: stored as it is
    | List(elems: seq<V>)            // a list: stored as the array built from it
    | Dict(entries: Entries<V>)      // a nested dictionary: stored as a group
    | Unsupported(typeName: string)  // anything else

  /** A dictionary's entries in iteration order. */
  datatype Entries<V> = Nil | Cons(key: string, item: Item<V>, rest: Entries<V>)

  /** The `ValueError` raised for an entry of an unsupported type. */
  datatype SaveError = SaveError(key: string, typeName: string)

  /** What loading finds under a key: a dataset's value, or a group's children. */
  datatype Loaded<V> = Dataset(value: V) | Group(children: map<string, Loaded<V>>)

  /** The HDF5 file, open for writing. */
  class H5File<V> {
    var datasets: map<Path, V>

    /** A file freshly opened with mode `"w"`: empty. */
    constructor ()
      ensures datasets == map[]
    {
      datasets := map[];
    }
  }

  // ---------------------------------------------------------------- the shape of a dictionary

  /** The number of entries and items in a nested dictionary, as a termination measure. */
  function EntriesSize<V>(es: Entries<V>): nat
  {
    match es
    case Nil => 0
    case Cons(_, item, rest) => ItemSize(item) + EntriesSize(rest) + 1
  }

  function ItemSize<V>(item: Item<V>): nat
  {
    match item
    case Dict(sub) => EntriesSize(sub) + 1
    case _ => 1
  }

  /** The keys of a dictionary's entries. */
  function KeySet<V>(es: Entries<V>): set<string>
  {
    match es
    case Nil => {}
    case Cons(key, _, rest) => {key} + KeySet(rest)
  }

  /** No entry, at any depth, has an unsupported type. */
  predicate AllSupported<V>(es: Entries<V>)
  {
    match es
    case Nil => true
    case Cons(_, item, rest) => ItemSupported(item) && AllSupported(rest)
  }

  predicate ItemSupported<V>(item: Item<V>)
  {
    match item
    case Unsupported(_) => false
    case Dict(sub) => AllSupported(sub)
    case _ => true
  }

  /** Some entry, at some depth, has key `key` and holds an unsupported type named `typeName`. */
  predicate UnsupportedAt<V>(es: Entries<V>, key: string, typeName: string)
  {
    match es
    case Nil => false
    case Cons(k, item, rest) =>
      (k == key && item == Unsupported(typeName)) ||
      (item.Dict? && UnsupportedAt(item.entries, key, typeName)) ||
      UnsupportedAt(rest, key, typeName)
  }

  /**
   * A dictionary that survives a save and a load: every type supported,
   * distinct keys at every level (as in any Python dictionary), and no empty
   * nested dictionary.
   */
  predicate WellFormed<V>(es: Entries<V>)
  {
    AllSupported(es) && DistinctNonEmpty(es)
  }

  predicate DistinctNonEmpty<V>(es: Entries<V>)
  {
    match es
    case Nil => true
    case Cons(key, item, rest) =>
      key !in KeySet(rest) && (item.Dict? ==> item.entries != Nil && DistinctNonEmpty(item.entries)) && DistinctNonEmpty(rest)
  }

  // ---------------------------------------------------------------- saving

  /**
   * `_recursive_save` on the file's datasets `ds`: the new datasets, and the
   * error raised, if any. Leaves go to `path + [key]`, lists through `pack`
   * (the array built from a list), nested dictionaries recurse one level
   * down, and an unsupported type stops the save with what was written so
   * far kept.
   */
  function Save<V>(ds: map<Path, V>, path: Path, es: Entries<V>, pack: seq<V> -> V): (map<Path, V>, Option<SaveError>)
    decreases es
  {
    match es
    case Nil => (ds, None)
    case Cons(key, item, rest) =>
      match item
      case Leaf(v) => Save(ds[path + [key] := v], path, rest, pack)
      case List(elems) => Save(ds[path + [key] := pack(elems)], path, rest, pack)
      case Dict(sub) =>
        var inner := Save(ds, path + [key], sub, pack);
        if inner.1.Some? then inner else Save(inner.0, path, rest, pack)
      case Unsupported(typeName) => (ds, Some(SaveError(key, typeName)))
  }

  /** `p` lies strictly below `path`. */
  predicate Under(p: Path, path: Path)
  {
    |path| < |p| && p[..|path|] == path
  }

  /** The datasets a fully supported dictionary writes below `path`; a later entry wins. */
  function Flatten<V>(path: Path, es: Entries<V>, pack: seq<V> -> V): (f: map<Path, V>)
    decreases es
  {
    match es
    case Nil => map[]
    case Cons(key, item, rest) => ItemFlatten(path, key, item, pack) + Flatten(path, rest, pack)
  }

  function ItemFlatten<V>(path: Path, key: string, item: Item<V>, pack: seq<V> -> V): (f: map<Path, V>)
    decreases item
  {
    match item
    case Leaf(v) => map[path + [key] := v]
    case List(elems) => map[path + [key] := pack(elems)]
    case Dict(sub) => Flatten(path + [key], sub, pack)
    case Unsupported(_) => map[]
  }

  /** Saving stops with an error exactly when an unsupported item is reachable, and the error names one. */
  lemma {:induction false} SaveFailsIffUnsupported<V>(ds: map<Path, V>, path: Path, es: Entries<V>, pack: seq<V> -> V)
    ensures Save(ds, path, es, pack).1.Some? <==> !AllSupported(es)
    ensures Save(ds, path, es, pack).1.Some? ==>
      UnsupportedAt(es, Save(ds, path, es, pack).1.value.key, Save(ds, path, es, pack).1.value.typeName)
    decreases es
  {
    match es
    case Nil =>
    case Cons(key, item, rest) =>
      match item
      case Leaf(v) => SaveFailsIffUnsupported(ds[path + [key] := v], path, rest, pack);
      case List(elems) => SaveFailsIffUnsupported(ds[path + [key] := pack(elems)], path, rest, pack);
      case Dict(sub) =>
        SaveFailsIffUnsupported(ds, path + [key], sub, pack);
        var inner := Save(ds, path + [key], sub, pack);
        if inner.1.None? {
          SaveFailsIffUnsupported(inner.0, path, rest, pack);
        }
      case Unsupported(_) =>
  }

  /** Saving writes only strictly below `path`: every other dataset of the file is left as it was. */
  lemma {:induction false} SaveStaysBelow<V>(ds: map<Path, V>, path: Path, es: Entries<V>, pack: seq<V> -> V)
    ensures forall p :: !Under(p, path) ==>
      (p in Save(ds, path, es, pack).0 <==> p in ds) && (p in ds ==> Save(ds, path, es, pack).0[p] == ds[p])
    decreases es
  {
    match es
    case Nil =>
    case Cons(key, item, rest) =>
      assert Under(path + [key], path);
      match item
      case Leaf(v) => SaveStaysBelow(ds[path + [key] := v], path, rest, pack);
      case List(elems) => SaveStaysBelow(ds[path + [key] := pack(elems)], path, rest, pack);
      case Dict(sub) =>
        SaveStaysBelow(ds, path + [key], sub, pack);
        var inner := Save(ds, path + [key], sub, pack);
        forall p | !Under(p, path) ensures !Under(p, path + [key]) {
        }
        if inner.1.None? {
          SaveStaysBelow(inner.0, path, rest, pack);
        }
      case Unsupported(_) =>
  }

  /** Map union is associative. */
  lemma UnionAssociative<K, W>(a: map<K, W>, b: map<K, W>, c: map<K, W>)
    ensures (a + b) + c == a + (b + c)
  {
  }

  /** Updating before a union is a union with the one-entry map. */
  lemma UpdateIsUnion<K, W>(a: map<K, W>, k: K, w: W)
    ensures a[k := w] == a + map[k := w]
  {
  }

  /** Updating after a union updates the right-hand side. */
  lemma UpdateAfterUnion<K, W>(a: map<K, W>, b: map<K, W>, k: K, w: W)
    ensures (a + b)[k := w] == a + b[k := w]
  {
  }

  /** A fully supported dictionary saves without error, adding exactly its flattened datasets. */
  lemma {:induction false} SaveWritesFlatten<V>(ds: map<Path, V>, path: Path, es: Entries<V>, pack: seq<V> -> V)
    requires AllSupported(es)
    ensures Save(ds, path, es, pack) == (ds + Flatten(path, es, pack), None)
    decreases es
  {
    match es
    case Nil =>
      assert ds + map[] == ds;
    case Cons(key, item, rest) =>
      var f := ItemFlatten(path, key, item, pack);
      var g := Flatten(path, rest, pack);
      match item
      case Leaf(v) =>
        SaveWritesFlatten(ds[path + [key] := v], path, rest, pack);
        UpdateIsUnion(ds, path + [key], v);
        UnionAssociative(ds, f, g);
      case List(elems) =>
        SaveWritesFlatten(ds[path + [key] := pack(elems)], path, rest, pack);
        UpdateIsUnion(ds, path + [key], pack(elems));
        UnionAssociative(ds, f, g);
      case Dict(sub) =>
        SaveWritesFlatten(ds, path + [key], sub, pack);
        SaveWritesFlatten(ds + f, path, rest, pack);
        UnionAssociative(ds, f, g);
  }

  /** Every flattened dataset lies strictly below `path`, under the key of the entry that wrote it. */
  lemma {:induction false} FlattenBelow<V>(path: Path, es: Entries<V>, pack: seq<V> -> V)
    ensures forall p :: p in Flatten(path, es, pack) ==> Under(p, path) && p[|path|] in KeySet(es)
    decreases es
  {
    match es
    case Nil =>
    case Cons(key, item, rest) =>
      FlattenBelow(path, rest, pack);
      ItemFlattenBelow(path, key, item, pack);
  }

  lemma {:induction false} ItemFlattenBelow<V>(path: Path, key: string, item: Item<V>, pack: seq<V> -> V)
    ensures forall p :: p in ItemFlatten(path, key, item, pack) ==> Under(p, path) && p[|path|] == key
    ensures item.Dict? ==> forall p :: p in ItemFlatten(path, key, item, pack) ==> Under(p, path + [key])
    decreases item
  {
    if item.Dict? {
      FlattenBelow(path + [key], item.entries, pack);
      assert ItemFlatten(path, key, item, pack) == Flatten(path + [key], item.entries, pack);
      forall p | p in ItemFlatten(path, key, item, pack) ensures Under(p, path) && p[|path|] == key {
        assert p[..|path| + 1] == path + [key];
        assert p[..|path|] == (p[..|path| + 1])[..|path|];
      }
    }
  }

  /** A well-formed item writes at least one dataset. */
  lemma {:induction false} ItemFlattenNonEmpty<V>(path: Path, key: string, item: Item<V>, pack: seq<V> -> V)
    requires ItemSupported(item) && (item.Dict? ==> item.entries != Nil && DistinctNonEmpty(item.entries))
    ensures exists p :: p in ItemFlatten(path, key, item, pack)
    decreases item
  {
    match item
    case Leaf(v) => assert path + [key] in ItemFlatten(path, key, item, pack);
    case List(elems) => assert path + [key] in ItemFlatten(path, key, item, pack);
    case Dict(sub) =>
      var first := sub.item;
      ItemFlattenNonEmpty(path + [key], sub.key, first, pack);
      var p :| p in ItemFlatten(path + [key], sub.key, first, pack);
      assert p in Flatten(path + [key], sub, pack);
      assert p in ItemFlatten(path, key, item, pack);
  }

  /** `d1` and `d2` hold the same datasets at and below `path + [key]`. */
  ghost predicate AgreeAt<V>(d1: map<Path, V>, d2: map<Path, V>, path: Path, key: string)
  {
    forall p :: Under(p, path) && p[|path|] == key ==> (p in d1 <==> p in d2) && (p in d1 ==> d1[p] == d2[p])
  }

  /** `d1` and `d2` hold the same datasets strictly below `path`. */
  ghost predicate AgreeBelow<V>(d1: map<Path, V>, d2: map<Path, V>, path: Path)
  {
    forall p :: Under(p, path) ==> (p in d1 <==> p in d2) && (p in d1 ==> d1[p] == d2[p])
  }

  // ---------------------------------------------------------------- loading

  /** The longest path among `paths`: what bounds the depth of the loading recursion. */
  ghost function MaxLength(paths: set<Path>): (n: nat)
    ensures forall p :: p in paths ==> |p| <= n
  {
    if paths == {} then 0 else
    var p :| p in paths;
    var m := MaxLength(paths - {p});
    if |p| < m then m else |p|
  }

  /** The names of the datasets and groups directly inside the group at `path`. */
  function Children<V>(ds: map<Path, V>, path: Path): (names: set<string>)
  {
    set p | p in ds && Under(p, path) :: p[|path|]
  }

  /**
   * `_recursive_load` of the group at `path`: each child that is a dataset
   * loads as what reading it (`item[()]`) returns, each child group as the
   * dictionary loaded from it. `read` stands for h5py's conversion on
   * reading: a string dataset comes back as bytes, a Python scalar as a
   * numpy scalar.
   */
  function Load<V>(ds: map<Path, V>, path: Path, read: V -> V): (loaded: map<string, Loaded<V>>)
    decreases MaxLength(ds.Keys) - |path|
  {
    map key | key in Children(ds, path) ::
      if path + [key] in ds then Dataset(read(ds[path + [key]])) else Group(Load(ds, path + [key], read))
  }

  /**
   * What a well-formed dictionary should load back as: leaves and packed
   * lists as datasets, read back through `read`, dictionaries as groups.
   */
  function Expected<V>(es: Entries<V>, pack: seq<V> -> V, read: V -> V): (m: map<string, Loaded<V>>)
    requires AllSupported(es)
    ensures m.Keys == KeySet(es)
  {
    match es
    case Nil => map[]
    case Cons(key, item, rest) => Expected(rest, pack, read)[key := ExpectedItem(item, pack, read)]
  }

  function ExpectedItem<V>(item: Item<V>, pack: seq<V> -> V, read: V -> V): Loaded<V>
    requires ItemSupported(item)
  {
    match item
    case Leaf(v) => Dataset(read(v))
    case List(elems) => Dataset(read(pack(elems)))
    case Dict(sub) => Group(Expected(sub, pack, read))
  }

  /** One key of a well-formed dictionary loads back as expected from any file agreeing with its flattening there. */
  lemma {:induction false} LoadKey<V>(ds: map<Path, V>, path: Path, es: Entries<V>, key: string, pack: seq<V> -> V, read: V -> V)
    requires WellFormed(es) && key in KeySet(es)
    requires AgreeAt(ds, Flatten(path, es, pack), path, key)
    ensures key in Load(ds, path, read) && Load(ds, path, read)[key] == Expected(es, pack, read)[key]
    decreases es, 0
  {
    var Cons(k, item, rest) := es;
    var f, g := ItemFlatten(path, k, item, pack), Flatten(path, rest, pack);
    ItemFlattenBelow(path, k, item, pack);
    FlattenBelow(path, rest, pack);
    if k == key {
      assert AgreeAt(ds, f, path, key) by {
        forall p | Under(p, path) && p[|path|] == key ensures p !in g {
        }
      }
      var here := path + [key];
      assert Under(here, path) && here[|path|] == key;
      assert ItemSupported(item);
      match item
      case Leaf(v) =>
        assert here in f;
        assert here in ds && ds[here] == v;
      case List(elems) =>
        assert here in f;
        assert here in ds && ds[here] == pack(elems);
      case Dict(sub) =>
        assert here !in f;
        ItemFlattenNonEmpty(path, key, item, pack);
        var p :| p in f;
        assert p in ds && Under(p, path);
        assert AgreeBelow(ds, Flatten(here, sub, pack), here) by {
          forall p | Under(p, here) ensures Under(p, path) && p[|path|] == key {
            assert p[..|path| + 1] == here;
            assert p[..|path|] == (p[..|path| + 1])[..|path|];
          }
        }
        LoadExpected(ds, here, sub, pack, read);
      case Unsupported(_) =>
        assert false;
    } else {
      assert AgreeAt(ds, g, path, key);
      LoadKey(ds, path, rest, key, pack, read);
    }
  }

  /**
   * Loading a group from a file that holds exactly the flattening of a
   * well-formed dictionary below it rebuilds that dictionary.
   */
  lemma {:induction false} LoadExpected<V>(ds: map<Path, V>, path: Path, es: Entries<V>, pack: seq<V> -> V, read: V -> V)
    requires WellFormed(es)
    requires AgreeBelow(ds, Flatten(path, es, pack), path)
    ensures Load(ds, path, read) == Expected(es, pack, read)
    decreases es, 1
  {
    var loaded, expected := Load(ds, path, read), Expected(es, pack, read);
    forall key | key in KeySet(es) ensures key in loaded && loaded[key] == expected[key] {
      LoadKey(ds, path, es, key, pack, read);
    }
    FlattenBelow(path, es, pack);
    forall key | key in loaded ensures key in KeySet(es) {
      var p :| p in ds && Under(p, path) && p[|path|] == key;
    }
  }

  /**
   * The round trip of `_recursive_save` into an empty file followed by
   * `_recursive_load` from the root: a well-formed dictionary saves without
   * error and loads back with the same nesting, lists becoming arrays and
   * every dataset converted as reading converts it.
   */
  lemma SaveLoadRoundTrip<V>(es: Entries<V>, pack: seq<V> -> V, read: V -> V)
    requires WellFormed(es)
    ensures Save(map[], [], es, pack).1 == None
    ensures Load(Save(map[], [], es, pack).0, [], read) == Expected(es, pack, read)
  {
    SaveWritesFlatten(map[], [], es, pack);
    assert map[] + Flatten([], es, pack) == Flatten([], es, pack);
    LoadExpected(Flatten([], es, pack), [], es, pack, read);
  }

  /** An empty nested dictionary writes nothing, so it does not come back: the round trip loses it. */
  lemma EmptyDictionaryLost<V>(key: string, pack: seq<V> -> V, read: V -> V)
    ensures Save(map[], [], Cons(key, Dict(Nil), Nil), pack) == (map[], None)
    ensures Load(Save(map[], [], Cons(key, Dict(Nil), Nil), pack).0, [], read) == map[]
    ensures AllSupported<V>(Cons(key, Dict(Nil), Nil))
    ensures Expected(Cons(key, Dict(Nil), Nil), pack, read) == map[key := Group(map[])]
  {
    assert ItemSupported<V>(Dict(Nil));
    var empty: map<Path, V> := map[];
    assert Children(empty, []) == {};
  }

  /**
   * A single leaf comes back as what reading makes of it: equal to the value
   * written exactly when reading leaves that value unchanged (a string, read
   * back as bytes, does not).
   */
  lemma LeafReadBack<V>(key: string, v: V, pack: seq<V> -> V, read: V -> V)
    ensures key in Load(Save(map[], [], Cons(key, Leaf(v), Nil), pack).0, [], read)
    ensures Load(Save(map[], [], Cons(key, Leaf(v), Nil), pack).0, [], read)[key] == Dataset(read(v))
    ensures Load(Save(map[], [], Cons(key, Leaf(v), Nil), pack).0, [], read)[key] == Dataset(v) <==> read(v) == v
  {
    var es: Entries<V> := Cons(key, Leaf(v), Nil);
    assert WellFormed(es);
    SaveLoadRoundTrip(es, pack, read);
  }

  // ---------------------------------------------------------------- the recursive methods

  /**
   * `_recursive_save`: walks the entries in order, writing leaves and packed
   * lists into the file and recursing into nested dictionaries; returns the
   * error of the first unsupported entry, with the earlier writes kept.
   */
  method RecursiveSave<V>(h5file: H5File<V>, path: Path, dic: Entries<V>, pack: seq<V> -> V) returns (err: Option<SaveError>)
    modifies h5file
    ensures (h5file.datasets, err) == Save(old(h5file.datasets), path, dic, pack)
    decreases EntriesSize(dic)
  {
    var current := dic;
    while current.Cons?
      invariant EntriesSize(current) <= EntriesSize(dic)
      invariant Save(h5file.datasets, path, current, pack) == Save(old(h5file.datasets), path, dic, pack)
      decreases EntriesSize(current)
    {
      var key, item := current.key, current.item;
      match item {
        case Leaf(v) =>
          h5file.datasets := h5file.datasets[path + [key] := v];
        case List(elems) =>
          h5file.datasets := h5file.datasets[path + [key] := pack(elems)];
        case Dict(sub) =>
          err := RecursiveSave(h5file, path + [key], sub, pack);
          if err.Some? {
            return;
          }
        case Unsupported(typeName) =>
          return Some(SaveError(key, typeName));
      }
      current := current.rest;
    }
    err := None;
  }

  /** The loaded entries of the children in `names`. */
  function LoadOn<V>(ds: map<Path, V>, path: Path, names: set<string>, read: V -> V): (m: map<string, Loaded<V>>)
    requires names <= Children(ds, path)
  {
    map key | key in names :: Load(ds, path, read)[key]
  }

  /**
   * `_recursive_load`: every child of the group at `path` is written into
   * `dic`, a dataset as its value and a group as a fresh dictionary filled
   * recursively; entries of `dic` with other names are kept.
   */
  method RecursiveLoad<V>(h5file: H5File<V>, path: Path, dic: map<string, Loaded<V>>, read: V -> V) returns (r: map<string, Loaded<V>>)
    ensures r == dic + Load(h5file.datasets, path, read)
    decreases MaxLength(h5file.datasets.Keys) - |path|
  {
    ghost var ds := h5file.datasets;
    var names := Children(h5file.datasets, path);
    var todo := names;
    r := dic;
    assert r == dic + LoadOn(ds, path, names - todo, read);
    while todo != {}
      invariant todo <= names
      invariant r == dic + LoadOn(ds, path, names - todo, read)
      decreases todo
    {
      var key :| key in todo;
      var item: Loaded<V>;
      if path + [key] in h5file.datasets {
        item := Dataset(read(h5file.datasets[path + [key]]));
      } else {
        var sub := RecursiveLoad(h5file, path + [key], map[], read);
        assert sub == Load(ds, path + [key], read) by {
          assert map[] + Load(ds, path + [key], read) == Load(ds, path + [key], read);
        }
        item := Group(sub);
      }
      assert item == Load(ds, path, read)[key];
      LoadOnStep(ds, path, names - todo, key, read);
      UpdateAfterUnion(dic, LoadOn(ds, path, names - todo, read), key, item);
      assert names - (todo - {key}) == (names - todo) + {key};
      r := r[key := item];
      todo := todo - {key};
    }
    assert names - todo == names;
    assert LoadOn(ds, path, names, read) == Load(ds, path, read);
  }

  /** Loading one more child extends the loaded entries by that child alone. */
  lemma LoadOnStep<V>(ds: map<Path, V>, path: Path, names: set<string>, key: string, read: V -> V)
    requires names <= Children(ds, path) && key in Children(ds, path) && key !in names
    ensures LoadOn(ds, path, names + {key}, read) == LoadOn(ds, path, names, read)[key := Load(ds, path, read)[key]]
  {
  }
}
