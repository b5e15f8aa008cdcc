/** Publishing the generated catalogue as the packaged copy with its digest, and what an apply leaves. */
module CataloguePublication {
  import opened Wrappers
  import opened DependencyPins
  import opened CoordinateUpdates

  // ----- declarations -----

  /** A completed product's line of the catalogue, read and checked. */
  datatype Declaration = Declaration(id: string, owner: string, path: string, sha: string, commit: string,
                                     ref: string, digest: string)

  predicate IsLowerHex(s: string, n: nat) { |s| == n && forall i :: 0 <= i < |s| ==> IsHex(s[i]) }

  /** A relative path that does not climb. */
  predicate IsSafe(s: string) { s != "" && s[0] != '/' && ".." !in Parts(s) }

  const SHA256 := "sha256:"

  predicate IsImageDigest(s: string) { SHA256 <= s && IsLowerHex(s[|SHA256|..], 64) }

  /** `PublishedProductDescriptor._validate`, with the strings it takes for non-empty. */
  predicate IsValid(d: Declaration) {
    && d.id != "" && d.ref != ""
    && IsSafe(d.owner) && IsSafe(d.path)
    && IsLowerHex(d.sha, 64) && IsLowerHex(d.commit, 40) && IsImageDigest(d.digest)
  }

  const ENTRY_NAMES := {ProductId, OwnerDirectory, DescriptorPath, DescriptorSha, SourceCommit, ImageRef, ImageDigest,
                        Status}

  function NamesOf(o: Members): set<Name> {
    match o
    case End => {}
    case Member(name, value, next) => {name} + NamesOf(next)
  }

  /** The text of a member, which has to be a string. */
  function TextAt(o: Members, k: Name): Option<string> {
    var v := Lookup(o, k);
    if v.Some? && v.value.Text? then Some(v.value.text) else None
  }

  /** `PublishedProductDescriptor.from_mapping`. */
  function Declared(j: Json): Option<Declaration> {
    if !j.Object? || NamesOf(j.members) != ENTRY_NAMES then None
    else
      var o := j.members;
      var id, owner, path, sha := TextAt(o, ProductId), TextAt(o, OwnerDirectory), TextAt(o, DescriptorPath),
                                  TextAt(o, DescriptorSha);
      var commit, ref, digest := TextAt(o, SourceCommit), TextAt(o, ImageRef), TextAt(o, ImageDigest);
      if id.None? || owner.None? || path.None? || sha.None? || commit.None? || ref.None? || digest.None?
         || TextAt(o, Status) != Some("completed") then None
      else
        var d := Declaration(id.value, owner.value, path.value, sha.value, commit.value, ref.value, digest.value);
        if IsValid(d) then Some(d) else None
  }

  function AllDeclared(items: seq<Json>): Option<seq<Declaration>> {
    if items == [] then Some([])
    else
      var before, last := AllDeclared(items[..|items| - 1]), Declared(items[|items| - 1]);
      if before.None? || last.None? then None else Some(before.value + [last.value])
  }

  // ----- sorting by product id -----

  /** The order of strings. */
  predicate AtMost(a: string, b: string) {
    a == [] || (b != [] && (a[0] < b[0] || (a[0] == b[0] && AtMost(a[1..], b[1..]))))
  }

  lemma {:induction false} AtMostOrders(a: string, b: string)
    ensures AtMost(a, b) || AtMost(b, a)
    ensures AtMost(a, b) && AtMost(b, a) ==> a == b
  {
    if a != [] && b != [] {
      AtMostOrders(a[1..], b[1..]);
      assert a == [a[0]] + a[1..] && b == [b[0]] + b[1..];
    }
  }

  lemma {:induction false} AtMostOn(a: string, b: string, c: string)
    requires AtMost(a, b) && AtMost(b, c)
    ensures AtMost(a, c)
  {
    if a != [] && a[0] == b[0] == c[0] { AtMostOn(a[1..], b[1..], c[1..]); }
  }

  predicate Ascending(ds: seq<Declaration>) {
    forall i, j :: 0 <= i < j < |ds| ==> AtMost(ds[i].id, ds[j].id)
  }

  predicate DistinctIds(ds: seq<Declaration>) { forall i, j :: 0 <= i < j < |ds| ==> ds[i].id != ds[j].id }

  function Insert(d: Declaration, ds: seq<Declaration>): (r: seq<Declaration>)
    ensures multiset(r) == multiset(ds) + multiset{d}
  {
    if ds == [] then [d]
    else if AtMost(ds[0].id, d.id) then
      var rest := Insert(d, ds[1..]);
      assert ds == [ds[0]] + ds[1..];
      [ds[0]] + rest
    else [d] + ds
  }

  /** `sorted(declarations, key=...)`. */
  function Sorted(ds: seq<Declaration>): (r: seq<Declaration>)
    ensures multiset(r) == multiset(ds)
  {
    if ds == [] then []
    else
      assert ds == ds[..|ds| - 1] + [ds[|ds| - 1]];
      Insert(ds[|ds| - 1], Sorted(ds[..|ds| - 1]))
  }

  lemma {:induction false} InsertAscends(d: Declaration, ds: seq<Declaration>)
    requires Ascending(ds)
    ensures Ascending(Insert(d, ds))
  {
    if ds != [] {
      AtMostOrders(ds[0].id, d.id);
      if AtMost(ds[0].id, d.id) {
        var rest := Insert(d, ds[1..]);
        InsertAscends(d, ds[1..]);
        forall i | 0 <= i < |rest|
          ensures AtMost(ds[0].id, rest[i].id)
        {
          assert rest[i] in multiset(rest);
          if rest[i] != d { assert rest[i] in ds[1..]; }
        }
      } else {
        forall i | 0 <= i < |ds|
          ensures AtMost(d.id, ds[i].id)
        {
          if i > 0 { AtMostOn(d.id, ds[0].id, ds[i].id); }
        }
      }
    }
  }

  lemma {:induction false} SortedAscends(ds: seq<Declaration>)
    ensures Ascending(Sorted(ds))
  {
    if ds != [] {
      SortedAscends(ds[..|ds| - 1]);
      InsertAscends(ds[|ds| - 1], Sorted(ds[..|ds| - 1]));
    }
  }

  /** Two ascending orders of declarations with different ids start alike. */
  lemma SameFirst(a: seq<Declaration>, b: seq<Declaration>)
    requires Ascending(a) && Ascending(b) && DistinctIds(a) && multiset(a) == multiset(b) && a != [] && b != []
    ensures a[0] == b[0]
  {
    assert a[0] in multiset(b) && b[0] in multiset(a);
    var i :| 0 <= i < |b| && b[i] == a[0];
    var k :| 0 <= k < |a| && a[k] == b[0];
    AtMostOrders(a[0].id, b[0].id);
    assert i == 0 || AtMost(b[0].id, b[i].id);
  }

  lemma SameRest(a: seq<Declaration>, b: seq<Declaration>)
    requires a != [] && b != [] && a[0] == b[0] && multiset(a) == multiset(b)
    ensures multiset(a[1..]) == multiset(b[1..])
  {
    assert a == [a[0]] + a[1..] && b == [b[0]] + b[1..];
    assert multiset(a[1..]) == multiset(a) - multiset{a[0]};
  }

  /** Declarations with different ids have one ascending order. */
  lemma {:induction false} AscendingUniquely(a: seq<Declaration>, b: seq<Declaration>)
    requires Ascending(a) && Ascending(b) && DistinctIds(a) && multiset(a) == multiset(b)
    ensures a == b
  {
    hide AtMost;
    assert |a| == |multiset(a)| == |multiset(b)| == |b|;
    if a != [] {
      SameFirst(a, b);
      SameRest(a, b);
      AscendingUniquely(a[1..], b[1..]);
      assert a == [a[0]] + a[1..] && b == [b[0]] + b[1..];
    }
  }

  lemma SortedIsItself(ds: seq<Declaration>)
    requires Ascending(ds) && DistinctIds(ds)
    ensures Sorted(ds) == ds
  {
    SortedAscends(ds);
    AscendingUniquely(ds, Sorted(ds));
  }

  lemma SortedStaysDistinct(ds: seq<Declaration>)
    requires DistinctIds(ds)
    ensures DistinctIds(Sorted(ds))
  {
    var r := Sorted(ds);
    forall i, j | 0 <= i < j < |r|
      ensures r[i].id != r[j].id
    {
      DistinctMultiset(ds, r, i, j);
    }
  }

  /** Two places of a rearrangement never hold two declarations of one id. */
  lemma DistinctMultiset(ds: seq<Declaration>, r: seq<Declaration>, i: nat, j: nat)
    requires DistinctIds(ds) && multiset(r) == multiset(ds) && i < j < |r|
    ensures r[i].id != r[j].id
  {
    assert r[i] in multiset(ds) && r[j] in multiset(ds);
    if r[i] == r[j] {
      assert r == r[..j] + [r[j]] + r[j + 1..];
      assert r[i] in r[..j];
      assert multiset(r)[r[i]] >= 2;
      OnceAtMost(ds, r[i]);
    }
  }

  lemma {:induction false} OnceAtMost(ds: seq<Declaration>, d: Declaration)
    requires DistinctIds(ds)
    ensures multiset(ds)[d] <= 1
  {
    if ds != [] {
      var before, last := ds[..|ds| - 1], ds[|ds| - 1];
      assert ds == before + [last];
      OnceAtMost(before, d);
      if d == last { assert forall i :: 0 <= i < |before| ==> before[i].id != last.id; }
    }
  }

  // ----- loading and publishing -----

  /** `load_catalogue`; `None` where it raises. */
  function LoadCatalogue(codec: Codec, text: string): Option<seq<Declaration>> {
    var raw := codec.parse(text);
    if raw.None? || !raw.value.Object? then None
    else
      var o := raw.value.members;
      var products := Lookup(o, Products);
      if !(NamesOf(o) <= {Schema, Products}) || Lookup(o, Schema) != Some(Text(SCHEMA)) then None
      else if products.None? || !products.value.List? then None
      else
        var declarations := AllDeclared(products.value.items);
        if declarations.None? || !DistinctIds(declarations.value) then None else Some(Sorted(declarations.value))
  }

  /** `load_catalogue` with its search for an id that was there before. */
  method Load(codec: Codec, text: string) returns (r: Option<seq<Declaration>>)
    ensures r == LoadCatalogue(codec, text)
  {
    hide AllDeclared, Sorted, NamesOf, Lookup;
    var raw := codec.parse(text);
    if raw.None? || !raw.value.Object? { return None; }
    var o := raw.value.members;
    if !(NamesOf(o) <= {Schema, Products}) || Lookup(o, Schema) != Some(Text(SCHEMA)) { return None; }
    var products := Lookup(o, Products);
    if products.None? || !products.value.List? { return None; }
    var loaded := AllDeclared(products.value.items);
    if loaded.None? { return None; }
    var declarations := loaded.value;
    var seen: set<string> := {};
    for i := 0 to |declarations|
      invariant seen == set k | 0 <= k < i :: declarations[k].id
      invariant DistinctIds(declarations[..i])
    {
      if declarations[i].id in seen { return None; }
      seen := seen + {declarations[i].id};
    }
    assert declarations[..|declarations|] == declarations;
    return Some(Sorted(declarations));
  }

  const SORTED_MEMBERS := [DescriptorPath, DescriptorSha, ImageDigest, ImageRef, OwnerDirectory, ProductId,
                           SourceCommit, Status]

  /** What a declaration holds under a name. */
  function Held(d: Declaration, k: Name): string {
    match k
    case ProductId => d.id
    case OwnerDirectory => d.owner
    case DescriptorPath => d.path
    case DescriptorSha => d.sha
    case SourceCommit => d.commit
    case ImageRef => d.ref
    case ImageDigest => d.digest
    case _ => "completed"
  }

  function Texts(ks: seq<Name>, d: Declaration): (r: seq<Json>)
    ensures |r| == |ks|
  {
    seq(|ks|, i requires 0 <= i < |ks| => Text(Held(d, ks[i])))
  }

  /** A declaration with its members in their alphabetical order. */
  function Descriptor(d: Declaration): Json { Object(SetAll(End, SORTED_MEMBERS, Texts(SORTED_MEMBERS, d))) }

  function Descriptors(ds: seq<Declaration>): seq<Json> {
    seq(|ds|, i requires 0 <= i < |ds| => Descriptor(ds[i]))
  }

  function Payload(ds: seq<Declaration>): Json {
    Object(SetAll(End, [Products, Schema], [List(Descriptors(ds)), Text(SCHEMA)]))
  }

  const SIDECAR := "  catalogue.json\n"

  /** `publish_catalogue`: the packaged catalogue and its digest, or nothing where it raises. */
  function Publish(codec: Codec, source: string): Option<(string, string)> {
    var declarations := LoadCatalogue(codec, source);
    if declarations.None? then None
    else
      var encoded := codec.pretty(Payload(declarations.value));
      Some((encoded, codec.sha256(encoded) + SIDECAR))
  }

  /** The parts of the JSON and digest libraries that publishing relies on: a digest is 64 lower-case
      digits, and one followed by a file name is no JSON text. */
  ghost predicate LawfulDigest(c: Codec) {
    forall s: string :: IsLowerHex(c.sha256(s), 64) && c.parse(c.sha256(s) + SIDECAR).None?
  }

  // ----- members by name -----

  lemma {:induction false} LookupPlaced<K, V>(o: Dict<K, V>, ks: seq<K>, vs: seq<V>, i: nat)
    requires |ks| == |vs| && Apart(ks) && i < |ks|
    ensures Lookup(SetAll(o, ks, vs), ks[i]) == Some(vs[i])
    decreases |ks|
  {
    if i == 0 {
      assert ks[0] !in ks[1..];
      LookupSetAll(Set(o, ks[0], vs[0]), ks[1..], vs[1..], ks[0]);
      LookupSet(o, ks[0], vs[0], ks[0]);
    } else {
      LookupPlaced(Set(o, ks[0], vs[0]), ks[1..], vs[1..], i - 1);
    }
  }

  lemma {:induction false} NamesAfterSet(o: Members, k: Name, v: Json)
    ensures NamesOf(Set(o, k, v)) == NamesOf(o) + {k}
  {
    if o.Member? { NamesAfterSet(o.next, k, v); }
  }

  lemma {:induction false} NamesPlaced(o: Members, ks: seq<Name>, vs: seq<Json>)
    requires |ks| == |vs|
    ensures NamesOf(SetAll(o, ks, vs)) == NamesOf(o) + set k | k in ks
    decreases |ks|
  {
    if ks != [] {
      NamesAfterSet(o, ks[0], vs[0]);
      NamesPlaced(Set(o, ks[0], vs[0]), ks[1..], vs[1..]);
      assert (set k | k in ks) == {ks[0]} + set k | k in ks[1..];
    }
  }

  lemma TextPlaced(ks: seq<Name>, d: Declaration, k: Name)
    requires Apart(ks) && k in ks
    ensures TextAt(SetAll(End, ks, Texts(ks, d)), k) == Some(Held(d, k))
  {
    hide SetAll, Lookup, Held;
    var i :| 0 <= i < |ks| && ks[i] == k;
    LookupPlaced(End, ks, Texts(ks, d), i);
  }

  /** Whatever the order of its members, the object of a valid declaration reads as it. */
  lemma DeclaresIn(ks: seq<Name>, d: Declaration)
    requires Apart(ks) && (set k | k in ks) == ENTRY_NAMES && IsValid(d)
    ensures Declared(Object(SetAll(End, ks, Texts(ks, d)))) == Some(d)
  {
    hide SetAll, IsValid, Apart, TextAt, Texts, ENTRY_NAMES, NamesOf;
    var o := SetAll(End, ks, Texts(ks, d));
    NamesPlaced(End, ks, Texts(ks, d));
    NoNames();
    assert NamesOf(o) == ENTRY_NAMES;
    EachIsEntered();
    forall k | k in ENTRY_NAMES
      ensures TextAt(o, k) == Some(Held(d, k))
    {
      assert k in set x | x in ks;
      TextPlaced(ks, d, k);
    }
  }

  lemma NoNames()
    ensures NamesOf(End) == {}
  {
  }

  lemma EachIsEntered()
    ensures ProductId in ENTRY_NAMES && OwnerDirectory in ENTRY_NAMES && DescriptorPath in ENTRY_NAMES
    ensures DescriptorSha in ENTRY_NAMES && SourceCommit in ENTRY_NAMES && ImageRef in ENTRY_NAMES
    ensures ImageDigest in ENTRY_NAMES && Status in ENTRY_NAMES
  {
  }

  // ----- what is generated can be published -----

  /** What `load_coordinates` checks of a product. */
  predicate IsLoadable(p: ProductCoordinates) {
    && p.id != "" && IsSafe(p.owner) && IsSafe(p.descriptor)
    && p.image.registry != "" && p.image.repository != "" && p.image.tag != "" && IsImageDigest(p.image.digest)
  }

  /** Coordinates as `load_coordinates` lets them through. */
  predicate Loaded(c: Coordinates) {
    && (forall i :: 0 <= i < |c.products| ==> IsLoadable(c.products[i]))
    && forall i, j :: 0 <= i < j < |c.products| ==> c.products[i].id != c.products[j].id
  }

  function DeclarationOf(codec: Codec, p: ProductCoordinates, encoded: string): Declaration {
    Declaration(p.id, p.owner, p.descriptor, codec.sha256(encoded), p.commit,
                p.image.registry + "/" + p.image.repository + ":" + p.image.tag, p.image.digest)
  }

  function Declarations(codec: Codec, products: seq<ProductCoordinates>, encoded: seq<string>): seq<Declaration>
    requires |products| == |encoded|
  {
    seq(|products|, i requires 0 <= i < |products| => DeclarationOf(codec, products[i], encoded[i]))
  }

  lemma EntryTexts(codec: Codec, p: ProductCoordinates, encoded: string)
    ensures var d := DeclarationOf(codec, p, encoded);
      Entry(codec, p, encoded) == Object(SetAll(End, ENTRY_MEMBERS, Texts(ENTRY_MEMBERS, d)))
  {
    hide SetAll;
    var d := DeclarationOf(codec, p, encoded);
    assert Texts(ENTRY_MEMBERS, d) == [
      Text(p.id), Text(p.owner), Text(p.descriptor), Text(codec.sha256(encoded)), Text(p.commit),
      Text(p.image.registry + "/" + p.image.repository + ":" + p.image.tag), Text(p.image.digest), Text("completed")];
  }

  lemma MembersAreNames()
    ensures Apart(ENTRY_MEMBERS) && (set k | k in ENTRY_MEMBERS) == ENTRY_NAMES
  {
  }

  lemma SortedAreNames()
    ensures Apart(SORTED_MEMBERS) && (set k | k in SORTED_MEMBERS) == ENTRY_NAMES
  {
  }

  lemma EntryDeclares(codec: Codec, p: ProductCoordinates, encoded: string)
    requires IsLoadable(p) && LawfulDigest(codec)
    ensures Declared(Entry(codec, p, encoded)) == Some(DeclarationOf(codec, p, encoded))
  {
    hide Declared, SetAll, Texts, Entry, Apart, ENTRY_MEMBERS, ENTRY_NAMES, SORTED_MEMBERS, IsSafe, IsImageDigest;
    var d := DeclarationOf(codec, p, encoded);
    assert IsLowerHex(codec.sha256(encoded), 64);
    EntryTexts(codec, p, encoded);
    MembersAreNames();
    DeclaresIn(ENTRY_MEMBERS, d);
  }

  lemma {:induction false} EachDeclares(items: seq<Json>, ds: seq<Declaration>)
    requires |items| == |ds| && forall i :: 0 <= i < |ds| ==> Declared(items[i]) == Some(ds[i])
    ensures AllDeclared(items) == Some(ds)
  {
    hide Declared;
    if ds != [] {
      EachDeclares(items[..|ds| - 1], ds[..|ds| - 1]);
      assert ds == ds[..|ds| - 1] + [ds[|ds| - 1]];
    }
  }

  lemma DescriptorDeclares(d: Declaration)
    requires IsValid(d)
    ensures Declared(Descriptor(d)) == Some(d)
  {
    hide Declared, SetAll, Texts, Apart, ENTRY_MEMBERS, ENTRY_NAMES, SORTED_MEMBERS, IsValid;
    SortedAreNames();
    DeclaresIn(SORTED_MEMBERS, d);
  }

  lemma DescriptorIsUnique(d: Declaration)
    ensures Unique(Descriptor(d))
  {
    hide SetAll, Texts, Unique, SORTED_MEMBERS;
    TextsAreUnique(SORTED_MEMBERS, d);
  }

  lemma TextsAreUnique(ks: seq<Name>, d: Declaration)
    ensures Unique(Object(SetAll(End, ks, Texts(ks, d))))
  {
    hide SetAll;
    UniqueSetAll(End, ks, Texts(ks, d));
  }

  /** An object of the schema and the products, in either order, loads if its products do. */
  lemma LoadsFrom(codec: Codec, ks: seq<Name>, vs: seq<Json>, items: seq<Json>, ds: seq<Declaration>)
    requires Lawful(codec) && |ks| == |vs| == 2 && Apart(ks)
    requires (ks[0] == Schema && vs[0] == Text(SCHEMA) && ks[1] == Products && vs[1] == List(items))
             || (ks[1] == Schema && vs[1] == Text(SCHEMA) && ks[0] == Products && vs[0] == List(items))
    requires Unique(List(items)) && AllDeclared(items) == Some(ds) && DistinctIds(ds)
    ensures LoadCatalogue(codec, codec.pretty(Object(SetAll(End, ks, vs)))) == Some(Sorted(ds))
  {
    hide Lawful, Unique, UniqueMembers, SetAll, Lookup, NamesOf, AllDeclared, DistinctIds, Sorted, Apart;
    TextIsUnique(SCHEMA);
    TwoPlaced(codec, ks, vs);
    assert Lookup(SetAll(End, ks, vs), Products) == Some(List(items));
  }

  lemma TextIsUnique(s: string)
    ensures Unique(Text(s))
  {
  }

  lemma TwoPlaced(codec: Codec, ks: seq<Name>, vs: seq<Json>)
    requires Lawful(codec) && |ks| == |vs| == 2 && Apart(ks)
    requires Unique(vs[0]) && Unique(vs[1])
    ensures var o := SetAll(End, ks, vs);
      && codec.parse(codec.pretty(Object(o))) == Some(Object(o))
      && NamesOf(o) == {ks[0], ks[1]} && Lookup(o, ks[0]) == Some(vs[0]) && Lookup(o, ks[1]) == Some(vs[1])
  {
    hide SetAll, Lookup, NamesOf, Apart;
    UniqueSetAll(End, ks, vs);
    NamesPlaced(End, ks, vs);
    NoNames();
    assert (set k | k in ks) == {ks[0], ks[1]};
    LookupPlaced(End, ks, vs, 0);
    LookupPlaced(End, ks, vs, 1);
  }

  /** The generated catalogue always loads, and as its products in the order of their ids. */
  lemma CatalogueLoads(codec: Codec, files: Files, c: Coordinates)
    requires Lawful(codec) && LawfulDigest(codec) && Loaded(c) && Updates(codec, files, c).Some?
    ensures LoadCatalogue(codec, Updates(codec, files, c).value[Catalogue])
         == Some(Sorted(Declarations(codec, c.products, Encodings(codec, files, c.products))))
  {
    hide Lawful, LawfulDigest, IsLoadable, Entry, Declared, SetAll, LoadCatalogue, Sorted, Overlay, PinnedUpdates,
         Encoded;
    var encoded := Encodings(codec, files, c.products);
    var items, ds := Entries(codec, c.products, encoded), Declarations(codec, c.products, encoded);
    forall i | 0 <= i < |items|
      ensures Declared(items[i]) == Some(ds[i]) && Unique(items[i])
    {
      EntryDeclares(codec, c.products[i], encoded[i]);
      EntryIsUnique(codec, c.products[i], encoded[i]);
    }
    EachDeclares(items, ds);
    LoadsFrom(codec, [Schema, Products], [Text(SCHEMA), List(items)], items, ds);
  }

  lemma {:induction false} DeclaredAreValid(items: seq<Json>)
    requires AllDeclared(items).Some?
    ensures forall i :: 0 <= i < |AllDeclared(items).value| ==> IsValid(AllDeclared(items).value[i])
  {
    hide IsValid, NamesOf, TextAt;
    if items != [] { DeclaredAreValid(items[..|items| - 1]); }
  }

  /** What loads is valid, in ascending order, and has no id twice. */
  lemma LoadedIsSorted(codec: Codec, text: string)
    requires LoadCatalogue(codec, text).Some?
    ensures var ds := LoadCatalogue(codec, text).value;
      Ascending(ds) && DistinctIds(ds) && forall i :: 0 <= i < |ds| ==> IsValid(ds[i])
  {
    hide AllDeclared, IsValid, NamesOf, Ascending, DistinctIds;
    var items := Lookup(codec.parse(text).value.members, Products).value.items;
    var ds := AllDeclared(items).value;
    SortedAscends(ds);
    SortedStaysDistinct(ds);
    DeclaredAreValid(items);
    forall i | 0 <= i < |Sorted(ds)|
      ensures IsValid(Sorted(ds)[i])
    {
      assert Sorted(ds)[i] in multiset(ds);
    }
  }

  /** The published catalogue loads as exactly the declarations of its source. */
  lemma PublishedLoads(codec: Codec, source: string)
    requires Lawful(codec) && Publish(codec, source).Some?
    ensures LoadCatalogue(codec, Publish(codec, source).value.0) == LoadCatalogue(codec, source)
  {
    hide Lawful, LoadCatalogue, Declared, SetAll, Descriptor, IsValid, Ascending, DistinctIds, Sorted, Unique;
    var ds := LoadCatalogue(codec, source).value;
    LoadedIsSorted(codec, source);
    var items := Descriptors(ds);
    forall i | 0 <= i < |ds|
      ensures Declared(items[i]) == Some(ds[i]) && Unique(items[i])
    {
      DescriptorDeclares(ds[i]);
      DescriptorIsUnique(ds[i]);
    }
    EachDeclares(items, ds);
    ListIsUnique(items);
    LoadsFrom(codec, [Products, Schema], [List(items), Text(SCHEMA)], items, ds);
    SortedIsItself(ds);
  }

  lemma ListIsUnique(items: seq<Json>)
    requires forall i :: 0 <= i < |items| ==> Unique(items[i])
    ensures Unique(List(items))
  {
  }

  /** The publication does not depend on the order of the products. */
  lemma SortedAlike(a: seq<Declaration>, b: seq<Declaration>)
    requires DistinctIds(a) && multiset(a) == multiset(b)
    ensures Sorted(a) == Sorted(b) && Payload(Sorted(a)) == Payload(Sorted(b))
  {
    hide Ascending, DistinctIds, Payload;
    SortedAscends(a);
    SortedAscends(b);
    SortedStaysDistinct(a);
    AscendingUniquely(Sorted(a), Sorted(b));
  }

  // ----- applying -----

  /** What an apply leaves; `None` where generating or publishing raises. */
  function Applied(codec: Codec, files: Files, c: Coordinates): Option<Files> {
    var u := Updates(codec, files, c);
    if u.None? then None
    else
      var published := Publish(codec, u.value[Catalogue]);
      if published.None? then None
      else Some((files + u.value)[Packaged := published.value.0][PackagedDigest := published.value.1])
  }

  /** What is generated can always be published. */
  lemma AppliesExactly(codec: Codec, files: Files, c: Coordinates)
    requires Lawful(codec) && LawfulDigest(codec) && Loaded(c)
    ensures Applied(codec, files, c).Some? <==> Updates(codec, files, c).Some?
  {
    hide Lawful, LawfulDigest, Loaded, Updates, LoadCatalogue;
    if Updates(codec, files, c).Some? { CatalogueLoads(codec, files, c); }
  }

  const WRITTEN_OVER := {Catalogue, Packaged, PackagedDigest}

  /** No product's descriptor is a file that is written after it. */
  predicate Clear(products: seq<ProductCoordinates>) { forall x :: x in WRITTEN_OVER ==> !Describes(products, x) }

  /** A descriptor reads the same after an apply that covers it, up to what it is rewritten to. */
  lemma AppliedReads(codec: Codec, files: Files, c: Coordinates, q: ProductCoordinates)
    requires Lawful(codec) && Applied(codec, files, c).Some?
    requires Describes(c.products, At(q)) && At(q) !in WRITTEN_OVER
    ensures Encoded(codec, Applied(codec, files, c).value, q) == Encoded(codec, files, q)
  {
    hide Lawful, At, Updates, Publish, WithImageCoordinates;
    AppliedDescriptor(codec, files, c, q);
  }

  lemma UpdatesAt(codec: Codec, files: Files, c: Coordinates, x: Path)
    requires Updates(codec, files, c).Some?
    ensures x in Updates(codec, files, c).value <==> x in PINNED || x == Catalogue || Describes(c.products, x)
    ensures x in PINNED && !Describes(c.products, x) ==>
              Updates(codec, files, c).value[x] == ReplaceDependencyPins(files[x], c.pins)
  {
    hide At, ReplaceDependencyPins, Overlay, CatalogueOf, Entries;
    OverlayAt(PinnedUpdates(files, c.pins), c.products, Encodings(codec, files, c.products), x);
  }

  /** Applying coordinates and then new ones for the same descriptors leaves the files that the new ones
      leave alone, provided that no descriptor is written over. */
  lemma LaterUpdatesWin(codec: Codec, files: Files, c: Coordinates, d: Coordinates)
    requires Lawful(codec) && Applied(codec, files, c).Some? && Clear(d.products)
    requires forall x :: Describes(c.products, x) <==> Describes(d.products, x)
    ensures var after := Applied(codec, files, c).value;
      Updates(codec, after, d) == Updates(codec, files, d) && Applied(codec, after, d) == Applied(codec, files, d)
  {
    hide Lawful, Updates, Publish, Describes;
    var after := Applied(codec, files, c).value;
    SameUpdates(codec, files, c, d);
    if Updates(codec, files, d).Some? && Applied(codec, files, d).Some? {
      forall x
        ensures x in Updates(codec, files, c).value <==> x in Updates(codec, files, d).value
      {
        UpdatesAt(codec, files, c, x);
        UpdatesAt(codec, files, d, x);
      }
      assert Applied(codec, after, d).value == Applied(codec, files, d).value;
    }
  }

  lemma SameUpdates(codec: Codec, files: Files, c: Coordinates, d: Coordinates)
    requires Lawful(codec) && Applied(codec, files, c).Some? && Clear(d.products)
    requires forall x :: Describes(c.products, x) <==> Describes(d.products, x)
    ensures Updates(codec, Applied(codec, files, c).value, d) == Updates(codec, files, d)
  {
    hide Lawful, At, Encoded, ReplaceDependencyPins, Overlay, CatalogueOf, Entries, Publish;
    var after := Applied(codec, files, c).value;
    forall i | 0 <= i < |d.products|
      ensures Encoded(codec, after, d.products[i]) == Encoded(codec, files, d.products[i])
    {
      assert Describes(d.products, At(d.products[i]));
      AppliedReads(codec, files, c, d.products[i]);
    }
    assert PINNED <= files.Keys && PINNED <= after.Keys;
    if AllEncoded(codec, files, d.products) {
      var encoded := Encodings(codec, files, d.products);
      assert Encodings(codec, after, d.products) == encoded;
      PinsAgain(codec, files, c, d);
      OverlaySame(PinnedUpdates(after, d.pins), PinnedUpdates(files, d.pins), d.products, encoded);
    }
  }

  lemma PinsAgain(codec: Codec, files: Files, c: Coordinates, d: Coordinates)
    requires Applied(codec, files, c).Some?
    requires forall x :: Describes(c.products, x) <==> Describes(d.products, x)
    ensures var after := Applied(codec, files, c).value;
      && PINNED <= files.Keys && PINNED <= after.Keys
      && forall x :: x in PINNED ==>
           PinnedUpdates(after, d.pins)[x] == PinnedUpdates(files, d.pins)[x] || Describes(d.products, x)
  {
    hide Describes, ReplaceDependencyPins, Publish;
    var after := Applied(codec, files, c).value;
    assert PINNED <= files.Keys by { hide AllEncoded; }
    forall x | x in PINNED
      ensures x in after
      ensures !Describes(d.products, x) ==>
                ReplaceDependencyPins(after[x], d.pins) == ReplaceDependencyPins(files[x], d.pins)
    {
      UpdatesAt(codec, files, c, x);
      if !Describes(d.products, x) { LaterPinsWin(files[x], c.pins, d.pins); }
    }
  }

  // ----- descriptors that are written over -----

  /** A file that is an object without a product, or no JSON, is no descriptor. */
  lemma NoDescriptor(codec: Codec, files: Files, c: Coordinates, x: Path)
    requires Describes(c.products, x) && x in files
    requires var j := codec.parse(files[x]); j.None? || (j.value.Object? && Lookup(j.value.members, Product).None?)
    ensures Updates(codec, files, c).None?
  {
    hide At, ReplaceDependencyPins, Overlay, CatalogueOf, Entries;
    var i :| 0 <= i < |c.products| && At(c.products[i]) == x;
    assert Encoded(codec, files, c.products[i]).None?;
  }

  lemma NoProductIn(codec: Codec, ks: seq<Name>, vs: seq<Json>)
    requires Lawful(codec) && |ks| == |vs| == 2 && Apart(ks) && Product !in ks && Unique(vs[0]) && Unique(vs[1])
    ensures var j := codec.parse(codec.pretty(Object(SetAll(End, ks, vs))));
      j.Some? && j.value.Object? && Lookup(j.value.members, Product).None?
  {
    hide Lawful, SetAll;
    TwoPlaced(codec, ks, vs);
    LookupSetAll(End, ks, vs, Product);
  }

  lemma EntriesAreUnique(codec: Codec, products: seq<ProductCoordinates>, encoded: seq<string>)
    requires |products| == |encoded|
    ensures Unique(List(Entries(codec, products, encoded)))
  {
    hide Entry;
    forall i | 0 <= i < |products|
      ensures Unique(Entry(codec, products[i], encoded[i]))
    {
      EntryIsUnique(codec, products[i], encoded[i]);
    }
  }

  lemma DescriptorsAreUnique(ds: seq<Declaration>)
    ensures Unique(List(Descriptors(ds)))
  {
    hide Descriptor;
    forall i | 0 <= i < |ds|
      ensures Unique(Descriptor(ds[i]))
    {
      DescriptorIsUnique(ds[i]);
    }
  }

  lemma WrittenOver(codec: Codec, files: Files, c: Coordinates, x: Path)
    requires Lawful(codec) && LawfulDigest(codec) && Applied(codec, files, c).Some?
    requires x in WRITTEN_OVER && Describes(c.products, x)
    ensures Updates(codec, Applied(codec, files, c).value, c).None?
  {
    hide Lawful, Describes, Unique, SetAll, Entries, Descriptors, Overlay, LoadCatalogue;
    var after := Applied(codec, files, c).value;
    TextIsUnique(SCHEMA);
    if x == Catalogue {
      var items := Entries(codec, c.products, Encodings(codec, files, c.products));
      EntriesAreUnique(codec, c.products, Encodings(codec, files, c.products));
      NoProductIn(codec, [Schema, Products], [Text(SCHEMA), List(items)]);
    } else if x == Packaged {
      var ds := LoadCatalogue(codec, Updates(codec, files, c).value[Catalogue]).value;
      DescriptorsAreUnique(ds);
      NoProductIn(codec, [Products, Schema], [List(Descriptors(ds)), Text(SCHEMA)]);
    }
    NoDescriptor(codec, after, c, x);
  }

  /** Once applied, coordinates generate exactly the same files again, `--check` finds nothing stale and
      another apply changes nothing, if and only if no product's descriptor is the catalogue, the packaged
      catalogue or its digest; if one is, generating raises. */
  lemma ApplySettles(codec: Codec, files: Files, c: Coordinates)
    requires Lawful(codec) && LawfulDigest(codec) && Loaded(c) && Updates(codec, files, c).Some?
    ensures Applied(codec, files, c).Some?
    ensures var u, after := Updates(codec, files, c).value, Applied(codec, files, c).value;
      && (&& Updates(codec, after, c) == Some(u)
          && Stale(after, u) == Some({})
          && Applied(codec, after, c) == Some(after)
          <==> Clear(c.products))
      && (Updates(codec, after, c).None? <==> !Clear(c.products))
  {
    hide Lawful, LawfulDigest, Loaded, Updates, Publish, Describes;
    AppliesExactly(codec, files, c);
    var u, after := Updates(codec, files, c).value, Applied(codec, files, c).value;
    if Clear(c.products) {
      LaterUpdatesWin(codec, files, c, c);
      forall x | x in u
        ensures x in after && after[x] == u[x]
      {
        UpdatesAt(codec, files, c, x);
      }
      assert (set x | x in u && after[x] != u[x]) == {};
    } else {
      var x :| x in WRITTEN_OVER && Describes(c.products, x);
      WrittenOver(codec, files, c, x);
    }
  }
}
