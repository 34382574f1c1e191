/**
 * The client's asset loading: sprite-sheet sources registered with their
 * paths moved under the textures directory, and tiles registered in
 * ascending key order so that client and server number them alike.
 */
module ClientAssets {
  import opened Wrappers
  import opened Paths
  import Registries

  const TEXTURES_BASE: string := "assets/textures/"

  /** The part of a tile manifest entry the client reads. */
  const CLIENT_PART: string := "@client"

  /** `SpriteSheetSource`: where the sheet's image is, and how it is cut. */
  datatype SpriteSheetSource<A> = SpriteSheetSource(path: string, layout: A)

  /**
   * `load_textures`: every manifest entry, in the manifest map's iteration
   * order, is registered under its key with its path joined onto the textures
   * directory.
   */
  method LoadTextures<A>(manifest: seq<(string, SpriteSheetSource<A>)>)
    returns (textures: Registries.Registry<(string, SpriteSheetSource<A>)>)
    ensures fresh(textures)
    ensures |textures.entries| == |manifest|
    ensures forall i :: 0 <= i < |manifest| ==>
      textures.entries[i] == (manifest[i].0, manifest[i].1.(path := Join(TEXTURES_BASE, manifest[i].1.path)))
  {
    textures := new Registries.Registry.New();
    for i := 0 to |manifest|
      invariant |textures.entries| == i
      invariant forall j :: 0 <= j < i ==>
        textures.entries[j] == (manifest[j].0, manifest[j].1.(path := Join(TEXTURES_BASE, manifest[j].1.path)))
    {
      var (k, data) := manifest[i];
      data := data.(path := Join(TEXTURES_BASE, data.path));
      var _ := textures.Register((k, data));
    }
  }

  /**
   * A relative sheet path ends up directly under the textures directory; an
   * absolute one is kept as it is.
   */
  lemma TexturePath(p: string)
    ensures !IsAbsolute(p) ==> Join(TEXTURES_BASE, p) == TEXTURES_BASE + p
    ensures IsAbsolute(p) ==> Join(TEXTURES_BASE, p) == p
  {
    assert TEXTURES_BASE[|TEXTURES_BASE| - 1] == SEPARATOR;
  }

  /**
   * Rust's `String` order, lexicographic on UTF-8 bytes, which is the
   * lexicographic order of the code points.
   */
  predicate Less(a: string, b: string) {
    if a == [] then b != []
    else if b == [] then false
    else a[0] < b[0] || (a[0] == b[0] && Less(a[1..], b[1..]))
  }

  lemma {:induction false} LessIrreflexive(a: string)
    ensures !Less(a, a)
  {
    if a != [] {
      LessIrreflexive(a[1..]);
    }
  }

  lemma {:induction false} LessTransitive(a: string, b: string, c: string)
    requires Less(a, b) && Less(b, c)
    ensures Less(a, c)
  {
    if a != [] && a[0] == b[0] && b[0] == c[0] {
      LessTransitive(a[1..], b[1..], c[1..]);
    }
  }

  lemma {:induction false} LessTotal(a: string, b: string)
    requires a != b
    ensures Less(a, b) || Less(b, a)
  {
    if a != [] && b != [] && a[0] == b[0] {
      assert a == [a[0]] + a[1..] && b == [b[0]] + b[1..];
      LessTotal(a[1..], b[1..]);
    }
  }

  /** Keys strictly ascending, so each key at most once. */
  predicate SortedByKey<D>(s: seq<(string, D)>) {
    forall i, j :: 0 <= i < j < |s| ==> Less(s[i].0, s[j].0)
  }

  predicate DistinctKeys<D>(s: seq<(string, D)>) {
    forall i, j :: 0 <= i < j < |s| ==> s[i].0 != s[j].0
  }

  /** One step of sorting: `x` inserted before the first larger key. */
  function InsertByKey<D>(x: (string, D), s: seq<(string, D)>): (r: seq<(string, D)>)
    requires SortedByKey(s) && forall y :: y in s ==> y.0 != x.0
    ensures SortedByKey(r) && multiset(r) == multiset(s) + multiset{x}
  {
    if s == [] || Less(x.0, s[0].0) then
      BelowHead(x, s);
      ConsSorted(x, s);
      [x] + s
    else
      LessTotal(x.0, s[0].0);
      assert s == [s[0]] + s[1..];
      var rest := InsertByKey(x, s[1..]);
      AboveHead(s, x, rest);
      ConsSorted(s[0], rest);
      [s[0]] + rest
  }

  /** A key below the first of a sorted sequence is below all of them. */
  lemma BelowHead<D>(x: (string, D), s: seq<(string, D)>)
    requires SortedByKey(s) && (s == [] || Less(x.0, s[0].0))
    ensures forall y :: y in s ==> Less(x.0, y.0)
  {
    forall y | y in s
      ensures Less(x.0, y.0)
    {
      var j :| 0 <= j < |s| && s[j] == y;
      if j > 0 {
        LessTransitive(x.0, s[0].0, s[j].0);
      }
    }
  }

  /** What is inserted into the tail of a sorted sequence stays above its head. */
  lemma AboveHead<D>(s: seq<(string, D)>, x: (string, D), rest: seq<(string, D)>)
    requires SortedByKey(s) && s != [] && Less(s[0].0, x.0)
    requires multiset(rest) == multiset(s[1..]) + multiset{x}
    ensures forall y :: y in rest ==> Less(s[0].0, y.0)
  {
    forall y | y in rest
      ensures Less(s[0].0, y.0)
    {
      assert y in multiset(rest);
      if y != x {
        assert y in multiset(s[1..]);
        var j :| 0 <= j < |s[1..]| && s[1..][j] == y;
        assert s[j + 1] == y;
      }
    }
  }

  /** A key below every key of a sorted sequence can be put in front of it. */
  lemma ConsSorted<D>(h: (string, D), s: seq<(string, D)>)
    requires SortedByKey(s) && forall y :: y in s ==> Less(h.0, y.0)
    ensures SortedByKey([h] + s)
  {
    var r := [h] + s;
    forall i, j | 0 <= i < j < |r|
      ensures Less(r[i].0, r[j].0)
    {
      assert r[j] == s[j - 1];
      if i > 0 {
        assert r[i] == s[i - 1];
      } else {
        assert s[j - 1] in s;
      }
    }
  }

  /** `entries.sort_by(|a, b| a.0.cmp(&b.0))`, on values. */
  function SortByKey<D>(s: seq<(string, D)>): (r: seq<(string, D)>)
    requires DistinctKeys(s)
    ensures SortedByKey(r) && multiset(r) == multiset(s)
  {
    if s == [] then []
    else
      var rest := SortByKey(s[1..]);
      assert forall y :: y in rest ==> y.0 != s[0].0 by {
        forall y | y in rest ensures y.0 != s[0].0 {
          assert y in multiset(s[1..]);
          var j :| 0 <= j < |s[1..]| && s[1..][j] == y;
          assert s[j + 1] == y;
        }
      }
      assert s == [s[0]] + s[1..];
      InsertByKey(s[0], rest)
  }

  /**
   * Two key-sorted sequences with the same elements are the same sequence:
   * the sorted order depends only on what is sorted.
   */
  lemma {:induction false} SortedUnique<D>(a: seq<(string, D)>, b: seq<(string, D)>)
    requires SortedByKey(a) && SortedByKey(b)
    requires forall x :: x in a <==> x in b
    ensures a == b
  {
    assert b != [] ==> b[0] in b;
    if a != [] {
      assert a[0] in a && b != [] && b[0] in b;
      if a[0] != b[0] {
        var k :| 0 <= k < |b| && b[k] == a[0];
        var m :| 0 <= m < |a| && a[m] == b[0];
        assert k > 0 && m > 0;
        LessTransitive(b[0].0, a[0].0, b[0].0);
        LessIrreflexive(b[0].0);
      }
      forall x ensures x in a[1..] <==> x in b[1..] {
        if x in a[1..] {
          var i :| 0 <= i < |a[1..]| && a[1..][i] == x;
          assert a[i + 1] == x;
          LessIrreflexive(a[0].0);
          assert x != a[0];
          assert x in b;
          var j :| 0 <= j < |b| && b[j] == x;
          assert j != 0;
          assert b[1..][j - 1] == x;
        }
        if x in b[1..] {
          var i :| 0 <= i < |b[1..]| && b[1..][i] == x;
          assert b[i + 1] == x;
          LessIrreflexive(b[0].0);
          assert x != b[0];
          assert x in a;
          var j :| 0 <= j < |a| && a[j] == x;
          assert j != 0;
          assert a[1..][j - 1] == x;
        }
      }
      SortedUnique(a[1..], b[1..]);
      assert a == [a[0]] + a[1..] && b == [b[0]] + b[1..];
    }
  }

  /** `order` lists the manifest's keys, each once, as its iteration does. */
  ghost predicate Enumerates(order: seq<string>, keys: set<string>) {
    && (forall i, j :: 0 <= i < j < |order| ==> order[i] != order[j])
    && (forall k :: k in order <==> k in keys)
  }

  /** An entry the client can load: it has an "@client" part that parses. */
  predicate Usable<J, D>(entry: map<string, J>, parse: J -> Option<D>) {
    CLIENT_PART in entry && parse(entry[CLIENT_PART]).Some?
  }

  /**
   * The pipeline in `load_tiles`: each entry, in iteration order, has its
   * "@client" part removed and parsed; a missing part or a failed parse
   * panics, at the first entry where it happens.
   */
  function Collected<J, D>(manifest: map<string, map<string, J>>, order: seq<string>, parse: J -> Option<D>)
    : (r: Result<seq<(string, D)>, Panic>)
    requires forall k :: k in order ==> k in manifest
    ensures r.Ok? <==> forall k :: k in order ==> Usable(manifest[k], parse)
    ensures r.Ok? ==> |r.value| == |order|
    ensures r.Ok? ==> forall i :: 0 <= i < |order| ==> r.value[i] == (order[i], parse(manifest[order[i]][CLIENT_PART]).value)
  {
    if order == [] then Ok([])
    else
      var entry := manifest[order[0]];
      if CLIENT_PART !in entry then Err(Panic("Failed to load common tile manifest"))
      else
        match parse(entry[CLIENT_PART])
        case None => Err(Panic("Failed to parse common tile"))
        case Some(d) =>
          var rest := Collected(manifest, order[1..], parse);
          assert forall k :: k in order ==> k == order[0] || k in order[1..];
          if rest.Err? then rest else Ok([(order[0], d)] + rest.value)
  }

  /** The registrations `load_tiles` makes for sorted entries: key and loaded handles. */
  function Registrations<D, H>(sorted: seq<(string, D)>, handles: D -> H): (r: seq<(string, H)>)
    ensures |r| == |sorted| && forall i :: 0 <= i < |r| ==> r[i] == (sorted[i].0, handles(sorted[i].1))
  {
    seq(|sorted|, i requires 0 <= i < |sorted| => (sorted[i].0, handles(sorted[i].1)))
  }

  /** What `load_tiles` registers, in order, for the manifest listed in `order`. */
  function TilesFor<J, D, H>(manifest: map<string, map<string, J>>, order: seq<string>,
                             parse: J -> Option<D>, handles: D -> H): Result<seq<(string, H)>, Panic>
    requires Enumerates(order, manifest.Keys)
  {
    match Collected(manifest, order, parse)
    case Err(e) => Err(e)
    case Ok(entries) =>
      assert DistinctKeys(entries);
      Ok(Registrations(SortByKey(entries), handles))
  }

  /**
   * `load_tiles`, from the parsed manifest onwards: collect, sort by key, then
   * register each entry with its texture handles (`handles`, standing for
   * `load_handles`) in a new registry.
   */
  method LoadTiles<J, D, H>(manifest: map<string, map<string, J>>, order: seq<string>,
                            parse: J -> Option<D>, handles: D -> H)
    returns (r: Result<Registries.Registry<(string, H)>, Panic>)
    requires Enumerates(order, manifest.Keys)
    ensures r.Err? ==> TilesFor(manifest, order, parse, handles) == Err(r.error)
    ensures r.Ok? ==> fresh(r.value) && TilesFor(manifest, order, parse, handles) == Ok(r.value.entries)
  {
    var collected := Collected(manifest, order, parse);
    if collected.Err? {
      return Err(collected.error);
    }
    assert DistinctKeys(collected.value);
    var entries := SortByKey(collected.value);
    var tiles := RegisterInOrder(entries, handles);
    r := Ok(tiles);
  }

  /** The registration loop of `load_tiles`, in a new registry. */
  method RegisterInOrder<D, H>(entries: seq<(string, D)>, handles: D -> H)
    returns (tiles: Registries.Registry<(string, H)>)
    ensures fresh(tiles) && tiles.entries == Registrations(entries, handles)
  {
    tiles := new Registries.Registry.New();
    for i := 0 to |entries|
      invariant tiles.entries == Registrations(entries[..i], handles)
    {
      var _ := tiles.Register((entries[i].0, handles(entries[i].1)));
    }
    assert entries[..|entries|] == entries;
  }

  /** Loading succeeds iff every entry has a parsable "@client" part. */
  lemma LoadTilesSucceeds<J, D, H>(manifest: map<string, map<string, J>>, order: seq<string>,
                                   parse: J -> Option<D>, handles: D -> H)
    requires Enumerates(order, manifest.Keys)
    ensures TilesFor(manifest, order, parse, handles).Ok? <==> forall k :: k in manifest ==> Usable(manifest[k], parse)
  {
  }

  /**
   * The tiles registered come with strictly ascending keys, each the key of
   * a manifest entry and carrying that entry's loaded handles.
   */
  lemma LoadTilesSorted<J, D, H>(manifest: map<string, map<string, J>>, order: seq<string>,
                                 parse: J -> Option<D>, handles: D -> H)
    requires Enumerates(order, manifest.Keys) && TilesFor(manifest, order, parse, handles).Ok?
    ensures var r := TilesFor(manifest, order, parse, handles).value;
      && (forall i, j :: 0 <= i < j < |r| ==> Less(r[i].0, r[j].0))
      && (forall i :: 0 <= i < |r| ==> r[i].0 in manifest && r[i].1 == handles(parse(manifest[r[i].0][CLIENT_PART]).value))
  {
    var c := Collected(manifest, order, parse).value;
    assert DistinctKeys(c);
    var sorted := SortByKey(c);
    forall i | 0 <= i < |sorted|
      ensures sorted[i].0 in manifest && sorted[i].1 == parse(manifest[sorted[i].0][CLIENT_PART]).value
    {
      assert sorted[i] in multiset(c);
      CollectedMembers(manifest, order, parse, sorted[i]);
    }
  }

  /** Exactly one tile is registered per manifest entry. */
  lemma LoadTilesComplete<J, D, H>(manifest: map<string, map<string, J>>, order: seq<string>,
                                   parse: J -> Option<D>, handles: D -> H)
    requires Enumerates(order, manifest.Keys) && TilesFor(manifest, order, parse, handles).Ok?
    ensures var r := TilesFor(manifest, order, parse, handles).value;
      && |r| == |order|
      && (forall k :: k in manifest ==> exists i :: 0 <= i < |r| && r[i].0 == k)
  {
    var c := Collected(manifest, order, parse).value;
    assert DistinctKeys(c);
    var sorted := SortByKey(c);
    assert |sorted| == |multiset(sorted)| == |multiset(c)| == |c|;
    forall k | k in manifest
      ensures exists i :: 0 <= i < |sorted| && sorted[i].0 == k
    {
      var j :| 0 <= j < |order| && order[j] == k;
      assert c[j] in multiset(sorted);
      var i :| 0 <= i < |sorted| && sorted[i] == c[j];
    }
  }

  /**
   * The order tiles are registered in depends only on the manifest, not on
   * the order its map happens to be iterated in.
   */
  lemma LoadTilesOrderIndependent<J, D, H>(manifest: map<string, map<string, J>>, o1: seq<string>, o2: seq<string>,
                                           parse: J -> Option<D>, handles: D -> H)
    requires Enumerates(o1, manifest.Keys) && Enumerates(o2, manifest.Keys)
    ensures TilesFor(manifest, o1, parse, handles).Ok? <==> TilesFor(manifest, o2, parse, handles).Ok?
    ensures TilesFor(manifest, o1, parse, handles).Ok? ==>
      TilesFor(manifest, o1, parse, handles) == TilesFor(manifest, o2, parse, handles)
  {
    var c1, c2 := Collected(manifest, o1, parse), Collected(manifest, o2, parse);
    if c1.Ok? && c2.Ok? {
      assert DistinctKeys(c1.value) && DistinctKeys(c2.value);
      var s1, s2 := SortByKey(c1.value), SortByKey(c2.value);
      forall x ensures x in s1 <==> x in s2 {
        calc {
          x in s1;
          x in multiset(c1.value);
          { CollectedMembers(manifest, o1, parse, x); }
          x.0 in manifest && x.1 == parse(manifest[x.0][CLIENT_PART]).value;
          { CollectedMembers(manifest, o2, parse, x); }
          x in multiset(c2.value);
          x in s2;
        }
      }
      SortedUnique(s1, s2);
    }
  }

  /** The collected entries are exactly the manifest's keys, each with its parsed part. */
  lemma CollectedMembers<J, D>(manifest: map<string, map<string, J>>, order: seq<string>, parse: J -> Option<D>, x: (string, D))
    requires Enumerates(order, manifest.Keys) && Collected(manifest, order, parse).Ok?
    ensures x in Collected(manifest, order, parse).value <==>
      x.0 in manifest && x.1 == parse(manifest[x.0][CLIENT_PART]).value
  {
    var c := Collected(manifest, order, parse).value;
    if x.0 in manifest && x.1 == parse(manifest[x.0][CLIENT_PART]).value {
      var j :| 0 <= j < |order| && order[j] == x.0;
      assert c[j] == x;
    }
  }
}
