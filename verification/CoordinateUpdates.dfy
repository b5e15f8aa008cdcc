/** Generating every file that carries product coordinates, and checking that none is stale. */
module CoordinateUpdates {
  import opened Wrappers
  import opened DependencyPins

  // ----- dictionaries that keep the order of their members -----

  datatype Dict<K, V> = End | Member(name: K, value: V, next: Dict<K, V>)

  function Lookup<K(==), V>(o: Dict<K, V>, k: K): Option<V> {
    match o
    case End => None
    case Member(name, value, next) => if name == k then Some(value) else Lookup(next, k)
  }

  /** Assignment to a member: in place, or at the end when it is new. */
  function Set<K(==), V>(o: Dict<K, V>, k: K, v: V): Dict<K, V> {
    match o
    case End => Member(k, v, End)
    case Member(name, value, next) => if name == k then Member(k, v, next) else Member(name, value, Set(next, k, v))
  }

  lemma {:induction false} LookupSet<K, V>(o: Dict<K, V>, k: K, v: V, j: K)
    ensures Lookup(Set(o, k, v), j) == if j == k then Some(v) else Lookup(o, j)
  {
    if o.Member? { LookupSet(o.next, k, v, j); }
  }

  lemma {:induction false} SetAgain<K, V>(o: Dict<K, V>, k: K, v: V, w: V)
    ensures Set(Set(o, k, v), k, w) == Set(o, k, w)
  {
    if o.Member? { SetAgain(o.next, k, v, w); }
  }

  /** Assignments to different members commute when one of them is already there. */
  lemma {:induction false} SetsCommute<K, V>(o: Dict<K, V>, k: K, v: V, j: K, w: V)
    requires k != j && Lookup(o, k).Some?
    ensures Set(Set(o, k, v), j, w) == Set(Set(o, j, w), k, v)
  {
    if o.name != k { SetsCommute(o.next, k, v, j, w); }
  }

  function SetAll<K(==), V>(o: Dict<K, V>, ks: seq<K>, vs: seq<V>): Dict<K, V>
    requires |ks| == |vs|
    decreases |ks|
  {
    if ks == [] then o else SetAll(Set(o, ks[0], vs[0]), ks[1..], vs[1..])
  }

  lemma {:induction false} SetMovesIn<K, V>(o: Dict<K, V>, ks: seq<K>, vs: seq<V>, k: K, w: V)
    requires |ks| == |vs| && k !in ks && Lookup(o, k).Some?
    ensures Set(SetAll(o, ks, vs), k, w) == SetAll(Set(o, k, w), ks, vs)
    decreases |ks|
  {
    if ks != [] {
      LookupSet(o, ks[0], vs[0], k);
      SetMovesIn(Set(o, ks[0], vs[0]), ks[1..], vs[1..], k, w);
      SetsCommute(o, k, w, ks[0], vs[0]);
    }
  }

  predicate Apart<K(==)>(ks: seq<K>) { forall i, j :: 0 <= i < j < |ks| ==> ks[i] != ks[j] }

  lemma {:induction false} SetAllAgain<K, V>(o: Dict<K, V>, ks: seq<K>, vs: seq<V>, ws: seq<V>)
    requires |ks| == |vs| == |ws| && Apart(ks)
    ensures SetAll(SetAll(o, ks, vs), ks, ws) == SetAll(o, ks, ws)
    decreases |ks|
  {
    if ks != [] {
      var k, first := ks[0], Set(o, ks[0], vs[0]);
      LookupSet(o, k, vs[0], k);
      assert k !in ks[1..];
      SetMovesIn(first, ks[1..], vs[1..], k, ws[0]);
      SetAgain(o, k, vs[0], ws[0]);
      SetAllAgain(Set(o, k, ws[0]), ks[1..], vs[1..], ws[1..]);
    }
  }

  lemma {:induction false} LookupSetAll<K, V>(o: Dict<K, V>, ks: seq<K>, vs: seq<V>, j: K)
    requires |ks| == |vs| && j !in ks
    ensures Lookup(SetAll(o, ks, vs), j) == Lookup(o, j)
    decreases |ks|
  {
    if ks != [] {
      LookupSet(o, ks[0], vs[0], j);
      LookupSetAll(Set(o, ks[0], vs[0]), ks[1..], vs[1..], j);
    }
  }

  // ----- JSON values as they are edited -----

  /** The member names the tool knows, and all others. */
  datatype Name =
    | Product | Image | Registry | Repo | Tag | Digest | Provenance | SourceCommit
    | Schema | Products | ProductId | OwnerDirectory | DescriptorPath | DescriptorSha | ImageRef | ImageDigest | Status
    | Other(text: string)

  /** Objects keep their members in order; a scalar is a number, a boolean or null. */
  datatype Json = Text(text: string) | Scalar(literal: string) | List(items: seq<Json>) | Object(members: Members)

  type Members = Dict<Name, Json>

  // ----- descriptors -----

  datatype ImageCoordinates = ImageCoordinates(registry: string, repository: string, tag: string, digest: string)

  /** The files the tool knows by name, and every other file below the repository root by its parts. */
  datatype Path =
    | Pyproject | ServerDockerfile | GatewayDockerfile | SecretsDockerfile | Catalogue | Packaged | PackagedDigest
    | File(parts: seq<string>)

  /** The text between slashes. */
  function Split(s: string): (r: seq<string>)
    ensures r != []
  {
    if s == [] then [""]
    else
      var rest := Split(s[1..]);
      if s[0] == '/' then [""] + rest else [[s[0]] + rest[0]] + rest[1..]
  }

  /** The parts of a path as `pathlib` keeps them. */
  function Parts(s: string): seq<string> { Significant(Split(s)) }

  function Significant(parts: seq<string>): seq<string> {
    if parts == [] then []
    else (if parts[0] == "" || parts[0] == "." then [] else [parts[0]]) + Significant(parts[1..])
  }

  /** The file a relative path names. */
  function PathOf(s: string): Path {
    var parts := Parts(s);
    if parts == ["pyproject.toml"] then Pyproject
    else if parts == ["products", "cpk_server", "Dockerfile"] then ServerDockerfile
    else if parts == ["products", "cpk_local_gateway", "Dockerfile"] then GatewayDockerfile
    else if parts == ["products", "secrets_server", "Dockerfile"] then SecretsDockerfile
    else if parts == ["catalogue", "products.json"] then Catalogue
    else if parts == ["src", "control_plane_kit_servers", "catalogue.json"] then Packaged
    else if parts == ["src", "control_plane_kit_servers", "catalogue.json.sha256"] then PackagedDigest
    else File(parts)
  }

  datatype ProductCoordinates = ProductCoordinates(id: string, owner: string, descriptor: string,
                                                   commit: Commit, image: ImageCoordinates)

  /** Where a product's descriptor is. */
  function At(p: ProductCoordinates): Path { PathOf(p.descriptor) }

  const IMAGE_MEMBERS := [Registry, Repo, Tag, Digest]

  function ImageValues(i: ImageCoordinates): seq<Json> {
    [Text(i.registry), Text(i.repository), Text(i.tag), Text(i.digest)]
  }

  /** The image member with its coordinates, and the source commit of its provenance if it has one. */
  function WithCoordinates(image: Members, p: ProductCoordinates): Members {
    var placed := SetAll(image, IMAGE_MEMBERS, ImageValues(p.image));
    var provenance := Lookup(placed, Provenance);
    if provenance.Some? && provenance.value.Object? && Lookup(provenance.value.members, SourceCommit).Some?
    then Set(placed, Provenance, Object(Set(provenance.value.members, SourceCommit, Text(p.commit))))
    else placed
  }

  function ObjectAt(o: Members, k: Name): Option<Members> {
    var v := Lookup(o, k);
    if v.Some? && v.value.Object? then Some(v.value.members) else None
  }

  /** `_with_image_coordinates`; `None` where a step into the descriptor raises. */
  function WithImageCoordinates(descriptor: Json, p: ProductCoordinates): Option<Json> {
    if !descriptor.Object? then None
    else
      var product := ObjectAt(descriptor.members, Product);
      if product.None? then None
      else
        var image := ObjectAt(product.value, Image);
        if image.None? then None
        else Some(Object(Set(descriptor.members, Product,
                             Object(Set(product.value, Image, Object(WithCoordinates(image.value, p)))))))
  }

  lemma CoordinatesAgain(image: Members, p: ProductCoordinates, q: ProductCoordinates)
    ensures WithCoordinates(WithCoordinates(image, p), q) == WithCoordinates(image, q)
  {
    hide Set, SetAll, Lookup;
    var ks, vs, ws := IMAGE_MEMBERS, ImageValues(p.image), ImageValues(q.image);
    var placed := SetAll(image, ks, vs);
    SetAllAgain(image, ks, vs, ws);
    LookupSetAll(image, ks, vs, Provenance);
    LookupSetAll(image, ks, ws, Provenance);
    var provenance := ObjectAt(image, Provenance);
    if provenance.Some? && Lookup(provenance.value, SourceCommit).Some? {
      var x := Object(Set(provenance.value, SourceCommit, Text(p.commit)));
      LookupSet(placed, Provenance, x, Provenance);
      LookupSet(provenance.value, SourceCommit, Text(p.commit), SourceCommit);
      SetMovesIn(placed, ks, ws, Provenance, x);
      LookupSetAll(Set(placed, Provenance, x), ks, ws, Provenance);
      SetAgain(provenance.value, SourceCommit, Text(p.commit), Text(q.commit));
      SetAgain(SetAll(image, ks, ws), Provenance, x,
               Object(Set(provenance.value, SourceCommit, Text(q.commit))));
    }
  }

  /** The coordinates written last are the only ones that show, wherever the members stand. */
  lemma LaterCoordinatesWin(d: Json, p: ProductCoordinates, q: ProductCoordinates)
    ensures WithImageCoordinates(d, p).Some? <==> WithImageCoordinates(d, q).Some?
    ensures WithImageCoordinates(d, p).Some? ==>
              WithImageCoordinates(WithImageCoordinates(d, p).value, q) == WithImageCoordinates(d, q)
  {
    hide Set, Lookup, WithCoordinates;
    if WithImageCoordinates(d, p).Some? {
      var product := ObjectAt(d.members, Product).value;
      var image := ObjectAt(product, Image).value;
      var i := Object(WithCoordinates(image, p));
      var o := Object(Set(product, Image, i));
      LookupSet(d.members, Product, o, Product);
      LookupSet(product, Image, i, Image);
      CoordinatesAgain(image, p, q);
      SetAgain(product, Image, i, Object(WithCoordinates(image, q)));
      SetAgain(d.members, Product, o, Object(Set(product, Image, Object(WithCoordinates(image, q)))));
    }
  }

  // ----- reading and writing JSON -----

  /** A value as `json.loads` makes them: no object has a member twice. */
  predicate Unique(j: Json) {
    match j
    case Text(_) => true
    case Scalar(_) => true
    case List(items) => forall i :: 0 <= i < |items| ==> Unique(items[i])
    case Object(members) => UniqueMembers(members)
  }

  predicate UniqueMembers(o: Members) {
    match o
    case End => true
    case Member(name, value, next) => Lookup(next, name).None? && Unique(value) && UniqueMembers(next)
  }

  lemma {:induction false} UniqueSet(o: Members, k: Name, v: Json)
    requires UniqueMembers(o) && Unique(v)
    ensures UniqueMembers(Set(o, k, v))
  {
    if o.Member? && o.name != k {
      UniqueSet(o.next, k, v);
      LookupSet(o.next, k, v, o.name);
    }
  }

  lemma {:induction false} UniqueLookup(o: Members, k: Name)
    requires UniqueMembers(o) && Lookup(o, k).Some?
    ensures Unique(Lookup(o, k).value)
  {
    if o.name != k { UniqueLookup(o.next, k); }
  }

  lemma {:induction false} UniqueSetAll(o: Members, ks: seq<Name>, vs: seq<Json>)
    requires |ks| == |vs| && UniqueMembers(o) && forall i :: 0 <= i < |vs| ==> Unique(vs[i])
    ensures UniqueMembers(SetAll(o, ks, vs))
    decreases |ks|
  {
    if ks != [] {
      UniqueSet(o, ks[0], vs[0]);
      UniqueSetAll(Set(o, ks[0], vs[0]), ks[1..], vs[1..]);
    }
  }

  lemma CoordinatesKeepUnique(d: Json, p: ProductCoordinates)
    requires Unique(d) && WithImageCoordinates(d, p).Some?
    ensures Unique(WithImageCoordinates(d, p).value)
  {
    hide Set, SetAll, Lookup, UniqueMembers;
    UniqueLookup(d.members, Product);
    var product := ObjectAt(d.members, Product).value;
    UniqueLookup(product, Image);
    var image := ObjectAt(product, Image).value;
    var placed := SetAll(image, IMAGE_MEMBERS, ImageValues(p.image));
    UniqueSetAll(image, IMAGE_MEMBERS, ImageValues(p.image));
    var provenance := ObjectAt(placed, Provenance);
    if provenance.Some? {
      UniqueLookup(placed, Provenance);
      UniqueSet(provenance.value, SourceCommit, Text(p.commit));
      UniqueSet(placed, Provenance, Object(Set(provenance.value, SourceCommit, Text(p.commit))));
    }
    UniqueSet(product, Image, Object(WithCoordinates(image, p)));
    UniqueSet(d.members, Product, Object(Set(product, Image, Object(WithCoordinates(image, p)))));
  }

  /** The JSON library: a parser, the compact and the indented printer; and the digest. */
  datatype Codec = Codec(parse: string -> Option<Json>, compact: Json -> string, pretty: Json -> string,
                         sha256: string -> string)

  /** Both printers are inverted by the parser, and the parser builds no object with a member twice. */
  ghost predicate Lawful(c: Codec) {
    && (forall j | Unique(j) :: c.parse(c.compact(j)) == Some(j) && c.parse(c.pretty(j)) == Some(j))
    && (forall s: string :: c.parse(s).Some? ==> Unique(c.parse(s).value))
  }

  // ----- generating -----

  const SCHEMA := "cpk-servers.descriptor-catalogue"

  type Files = map<Path, string>

  datatype Coordinates = Coordinates(pins: Pins, products: seq<ProductCoordinates>)

  const PINNED: set<Path> := {Pyproject, ServerDockerfile, GatewayDockerfile, SecretsDockerfile}

  predicate Describes(products: seq<ProductCoordinates>, path: Path) {
    exists i :: 0 <= i < |products| && At(products[i]) == path
  }

  /** The new descriptor of a product, `None` where reading, parsing or editing the old one raises. */
  function Encoded(codec: Codec, files: Files, p: ProductCoordinates): Option<string> {
    if At(p) !in files then None
    else
      var descriptor := codec.parse(files[At(p)]);
      if descriptor.None? then None
      else
        var rewritten := WithImageCoordinates(descriptor.value, p);
        if rewritten.None? then None else Some(codec.compact(rewritten.value))
  }

  predicate AllEncoded(codec: Codec, files: Files, products: seq<ProductCoordinates>) {
    forall i :: 0 <= i < |products| ==> Encoded(codec, files, products[i]).Some?
  }

  function Encodings(codec: Codec, files: Files, products: seq<ProductCoordinates>): seq<string>
    requires AllEncoded(codec, files, products)
  {
    seq(|products|, i requires 0 <= i < |products| => Encoded(codec, files, products[i]).value)
  }

  function PinnedUpdates(files: Files, pins: Pins): Files
    requires PINNED <= files.Keys
  {
    map x | x in PINNED :: ReplaceDependencyPins(files[x], pins)
  }

  function Overlay(base: Files, products: seq<ProductCoordinates>, encoded: seq<string>): Files
    requires |products| == |encoded|
    decreases |products|
  {
    if products == [] then base
    else Overlay(base[At(products[0]) := encoded[0]], products[1..], encoded[1..])
  }

  const ENTRY_MEMBERS := [ProductId, OwnerDirectory, DescriptorPath, DescriptorSha, SourceCommit, ImageRef, ImageDigest,
                          Status]

  /** One product's line of the catalogue. */
  function Entry(codec: Codec, p: ProductCoordinates, encoded: string): Json {
    Object(SetAll(End, ENTRY_MEMBERS, [
      Text(p.id), Text(p.owner), Text(p.descriptor), Text(codec.sha256(encoded)), Text(p.commit),
      Text(p.image.registry + "/" + p.image.repository + ":" + p.image.tag), Text(p.image.digest),
      Text("completed")]))
  }

  function Entries(codec: Codec, products: seq<ProductCoordinates>, encoded: seq<string>): seq<Json>
    requires |products| == |encoded|
  {
    seq(|products|, i requires 0 <= i < |products| => Entry(codec, products[i], encoded[i]))
  }

  function CatalogueOf(entries: seq<Json>): Json {
    Object(SetAll(End, [Schema, Products], [Text(SCHEMA), List(entries)]))
  }

  /** `generate_updates`. */
  function Updates(codec: Codec, files: Files, c: Coordinates): Option<Files> {
    if !(PINNED <= files.Keys) || !AllEncoded(codec, files, c.products) then None
    else
      var encoded := Encodings(codec, files, c.products);
      Some(Overlay(PinnedUpdates(files, c.pins), c.products, encoded)
             [Catalogue := codec.pretty(CatalogueOf(Entries(codec, c.products, encoded)))])
  }

  lemma OverlayOfNone(base: Files)
    ensures Overlay(base, [], []) == base
  {
  }

  lemma {:induction false} OverlayOneMore(base: Files, products: seq<ProductCoordinates>, encoded: seq<string>,
                                          p: ProductCoordinates, e: string)
    requires |products| == |encoded|
    ensures Overlay(base, products + [p], encoded + [e]) == Overlay(base, products, encoded)[At(p) := e]
    decreases |products|
  {
    hide At;
    if products != [] {
      assert (products + [p])[1..] == products[1..] + [p] && (encoded + [e])[1..] == encoded[1..] + [e];
      OverlayOneMore(base[At(products[0]) := encoded[0]], products[1..], encoded[1..], p, e);
    } else {
      assert (products + [p])[1..] == [] && (encoded + [e])[1..] == [];
    }
  }

  method GenerateUpdates(codec: Codec, files: Files, c: Coordinates) returns (updates: Option<Files>)
    ensures updates == Updates(codec, files, c)
  {
    hide At, ReplaceDependencyPins, WithImageCoordinates, Overlay, Entry, CatalogueOf;
    if Pyproject !in files || ServerDockerfile !in files || GatewayDockerfile !in files
       || SecretsDockerfile !in files {
      return None;
    }
    var written := map[
      Pyproject := ReplaceDependencyPins(files[Pyproject], c.pins),
      ServerDockerfile := ReplaceDependencyPins(files[ServerDockerfile], c.pins),
      GatewayDockerfile := ReplaceDependencyPins(files[GatewayDockerfile], c.pins),
      SecretsDockerfile := ReplaceDependencyPins(files[SecretsDockerfile], c.pins)];
    ghost var pinned := PinnedUpdates(files, c.pins);
    assert written == pinned;
    var entries: seq<Json> := [];
    ghost var encodings: seq<string> := [];
    OverlayOfNone(pinned);
    for i := 0 to |c.products|
      invariant |encodings| == |entries| == i
      invariant forall k :: 0 <= k < i ==> Encoded(codec, files, c.products[k]) == Some(encodings[k])
      invariant forall k :: 0 <= k < i ==> entries[k] == Entry(codec, c.products[k], encodings[k])
      invariant written == Overlay(pinned, c.products[..i], encodings)
    {
      var p := c.products[i];
      assert !AllEncoded(codec, files, c.products) || Encoded(codec, files, p).Some?;
      if At(p) !in files { return None; }
      var descriptor := codec.parse(files[At(p)]);
      if descriptor.None? { return None; }
      var rewritten := WithImageCoordinates(descriptor.value, p);
      if rewritten.None? { return None; }
      var encoded := codec.compact(rewritten.value);
      assert c.products[..i + 1] == c.products[..i] + [p];
      OverlayOneMore(pinned, c.products[..i], encodings, p, encoded);
      written := written[At(p) := encoded];
      entries := entries + [Entry(codec, p, encoded)];
      encodings := encodings + [encoded];
    }
    assert c.products[..|c.products|] == c.products;
    assert encodings == Encodings(codec, files, c.products);
    assert entries == Entries(codec, c.products, encodings);
    return Some(written[Catalogue := codec.pretty(CatalogueOf(entries))]);
  }

  // ----- checking -----

  /** What `--check` compares: the generated files that are not on disk as they should be; `None` where
      one cannot be read. */
  function Stale(files: Files, updates: Files): Option<set<Path>> {
    if !(updates.Keys <= files.Keys) then None
    else Some(set p | p in updates && files[p] != updates[p])
  }

  lemma {:induction false} OverlayAt(base: Files, products: seq<ProductCoordinates>, encoded: seq<string>, x: Path)
    requires |products| == |encoded|
    ensures x in Overlay(base, products, encoded) <==> x in base || Describes(products, x)
    ensures x in Overlay(base, products, encoded) ==>
      var y := Overlay(base, products, encoded)[x];
      || (!Describes(products, x) && x in base && y == base[x])
      || exists i :: 0 <= i < |products| && At(products[i]) == x && y == encoded[i]
    decreases |products|
  {
    hide At;
    if products != [] {
      var p, rest := products[0], products[1..];
      var next := base[At(p) := encoded[0]];
      OverlayAt(next, rest, encoded[1..], x);
      assert forall i :: 0 <= i < |rest| ==> rest[i] == products[i + 1] && encoded[1..][i] == encoded[i + 1];
      if i :| 0 <= i < |rest| && At(rest[i]) == x { assert At(products[i + 1]) == x; }
      if Describes(products, x) && At(p) != x {
        var i :| 0 <= i < |products| && At(products[i]) == x;
        assert At(rest[i - 1]) == x;
      }
    }
  }

  /** The overlay hides what the base holds at a described path. */
  lemma {:induction false} OverlaySame(b: Files, d: Files, products: seq<ProductCoordinates>, encoded: seq<string>)
    requires |products| == |encoded| && b.Keys == d.Keys
    requires forall x :: x in b ==> b[x] == d[x] || Describes(products, x)
    ensures Overlay(b, products, encoded) == Overlay(d, products, encoded)
    decreases |products|
  {
    hide At;
    if products == [] {
      assert b == d;
    } else {
      var p, rest := products[0], products[1..];
      forall x | x in b && b[x] != d[x] && x != At(p)
        ensures Describes(rest, x)
      {
        var i :| 0 <= i < |products| && At(products[i]) == x;
        assert At(rest[i - 1]) == x;
      }
      OverlaySame(b[At(p) := encoded[0]], d[At(p) := encoded[0]], rest, encoded[1..]);
    }
  }

  /** After one set of coordinates has been applied, a described file reads as one of its products'
      new descriptors. */
  lemma AppliedDescriptor(codec: Codec, files: Files, c: Coordinates, q: ProductCoordinates)
    requires Lawful(codec) && Updates(codec, files, c).Some?
    requires Describes(c.products, At(q)) && At(q) != Catalogue
    ensures Encoded(codec, files + Updates(codec, files, c).value, q) == Encoded(codec, files, q)
  {
    hide At, WithImageCoordinates, ReplaceDependencyPins, Overlay;
    var x := At(q);
    var encoded := Encodings(codec, files, c.products);
    OverlayAt(PinnedUpdates(files, c.pins), c.products, encoded, x);
    var i :| 0 <= i < |c.products| && At(c.products[i]) == x && Updates(codec, files, c).value[x] == encoded[i];
    var p := c.products[i];
    assert Encoded(codec, files, p).Some?;
    var before := codec.parse(files[x]).value;
    CoordinatesKeepUnique(before, p);
    LaterCoordinatesWin(before, p, q);
  }

  lemma EntryIsUnique(codec: Codec, p: ProductCoordinates, encoded: string)
    ensures Unique(Entry(codec, p, encoded))
  {
    hide SetAll;
    var values := [
      Text(p.id), Text(p.owner), Text(p.descriptor), Text(codec.sha256(encoded)), Text(p.commit),
      Text(p.image.registry + "/" + p.image.repository + ":" + p.image.tag), Text(p.image.digest),
      Text("completed")];
    UniqueSetAll(End, ENTRY_MEMBERS, values);
  }
}
