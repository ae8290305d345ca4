/**
 * The location registry: a map from normalised place name to coordinate.
 * Keys are always normalised; writing a name that is already present
 * overwrites its coordinate instead of adding a second entry.
 */
module Registry {
  import opened Wrappers
  import opened Names

  /** A point in decimal degrees. */
  datatype Coord = Coord(lat: real, lon: real)

  type Locations = map<string, Coord>

  /** Every key has the shape normalizeName produces. */
  ghost predicate KeysNormalized(locs: Locations) {
    forall k :: k in locs ==> Normalized(k)
  }

  /** A sample of the starter places of Monrovia, with their coordinates. */
  function StarterLocations(): (locs: Locations)
    ensures KeysNormalized(locs)
  {
    StarterKeyRedLight();
    StarterKeyBroadStreet();
    StarterKeysShort();
    map[
      "red light" := Coord(6.3139, -10.7600),
      "broad street" := Coord(6.3106, -10.8010),
      "elua" := Coord(6.2830, -10.7608),
      "duala" := Coord(6.3325, -10.7925)
    ]
  }

  lemma StarterKeyRedLight()
    ensures Normalized("red light")
  {
  }

  lemma StarterKeyBroadStreet()
    ensures Normalized("broad street")
  {
  }

  lemma StarterKeysShort()
    ensures Normalized("elua") && Normalized("duala")
  {
  }

  /** The registry entry for a name, looked up under its normalised form. */
  function Lookup(locs: Locations, name: string): Option<Coord> {
    var key := NormalizeName(name);
    if key in locs then Some(locs[key]) else None
  }

  /** The write `locations[name] = {lat, lon}`, under the normalised name. The
      key invariant is kept, the name then looks up to the new coordinate, no
      key other than the written one is added, and every other entry is as it
      was. */
  function Upsert(locs: Locations, name: string, c: Coord): (r: Locations)
    ensures KeysNormalized(locs) ==> KeysNormalized(r)
    ensures Lookup(r, name) == Some(c)
    ensures r.Keys == locs.Keys + {NormalizeName(name)}
    ensures forall k :: k in locs && k != NormalizeName(name) ==> r[k] == locs[k]
  {
    locs[NormalizeName(name) := c]
  }

  // ---------- Lemmas ----------

  /** Writing a name that is already registered updates it rather than adding
      a duplicate: the registry grows by one entry exactly when the name was
      new. */
  lemma UpsertSize(locs: Locations, name: string, c: Coord)
    ensures NormalizeName(name) in locs ==> |Upsert(locs, name, c)| == |locs|
    ensures NormalizeName(name) !in locs ==> |Upsert(locs, name, c)| == |locs| + 1
  {
    var r := Upsert(locs, name, c);
    if NormalizeName(name) in locs {
      assert r.Keys == locs.Keys;
    } else {
      assert r.Keys == locs.Keys + {NormalizeName(name)};
    }
  }

  /** Case and spacing variants of a name find the same entry. */
  lemma LookupVariant(locs: Locations, a: string, b: string)
    requires Words(Lower(a)) == Words(Lower(b))
    ensures Lookup(locs, a) == Lookup(locs, b)
  {
    SameKeyIffSameWords(a, b);
  }

  /** After a write, every case and spacing variant of the written name finds
      the new coordinate. */
  lemma UpsertThenLookup(locs: Locations, name: string, variant: string, c: Coord)
    requires Words(Lower(variant)) == Words(Lower(name))
    ensures Lookup(Upsert(locs, name, c), variant) == Some(c)
  {
    LookupVariant(Upsert(locs, name, c), name, variant);
  }

  /** A write leaves the lookup of every name with different words unchanged. */
  lemma UpsertLeavesOthers(locs: Locations, name: string, other: string, c: Coord)
    requires Words(Lower(other)) != Words(Lower(name))
    ensures Lookup(Upsert(locs, name, c), other) == Lookup(locs, other)
  {
    SameKeyIffSameWords(name, other);
  }
}
