/** Workflow definitions and the catalog of them (internal/workflow/catalog.go). */
module Catalog {
  import opened Wrappers
  import opened SendWindow

  datatype Kind = RecurringSms | SingleSms | ManualFollowUp | OtherKind(name: string)

  datatype LegacyStatus = Published | Draft

  /** At most `batchSize` messages at once, then a pause of `per`. */
  datatype Rate = Rate(batchSize: int, per: int)

  datatype Definition = Definition(
    key: string,
    name: string,
    status: LegacyStatus,
    enabled: bool,
    kind: Kind,
    initialDelay: int,
    repeatEvery: int,
    maxOccurrences: int,
    messages: seq<string>,
    rate: Rate,
    window: Window,
    archiveNegative: bool,
    crmAction: string,
    taskBody: string)
  {
    /** Validate returns no error. */
    predicate Valid() {
      && key != ""
      && name != ""
      && (match kind
          case RecurringSms => initialDelay > 0 && repeatEvery >= 0 && maxOccurrences > 0 && messages != []
          case SingleSms => messages != [] && maxOccurrences == 1 && rate.batchSize > 0 && rate.per > 0
          case ManualFollowUp => initialDelay > 0 && taskBody != ""
          case OtherKind(_) => false)
      && (messages != [] ==> window.Valid())
    }
  }

  datatype CatalogError = DraftRequested(key: string) | UnknownKey(key: string)

  predicate DistinctKeys(catalog: seq<Definition>) {
    forall i, j :: 0 <= i < j < |catalog| ==> catalog[i].key != catalog[j].key
  }

  /** The keys asked for; blank ones are ignored. */
  function Requested(keys: seq<string>): (r: set<string>)
    ensures forall k :: k in r <==> k in keys && k != ""
  {
    if keys == [] then {} else
      var n := |keys| - 1;
      assert forall k :: k in keys <==> k in keys[..n] || k == keys[n];
      if keys[n] == "" then Requested(keys[..n]) else Requested(keys[..n]) + {keys[n]}
  }

  function CatalogKeys(catalog: seq<Definition>): (r: set<string>)
    ensures forall i :: 0 <= i < |catalog| ==> catalog[i].key in r
    ensures forall k :: k in r ==> exists i :: 0 <= i < |catalog| && catalog[i].key == k
  {
    if catalog == [] then {} else CatalogKeys(catalog[..|catalog| - 1]) + {catalog[|catalog| - 1].key}
  }

  /** The named entry exists and is not a draft. */
  predicate Enableable(key: string, catalog: seq<Definition>) {
    exists i :: 0 <= i < |catalog| && catalog[i].key == key && catalog[i].status != Draft
  }

  function Choose(d: Definition, requested: set<string>): Definition {
    if d.key in requested then d.(enabled := true) else d
  }

  /** The entries by key, with the requested ones switched on; none of those is a draft. */
  predicate Chosen(catalog: seq<Definition>, requested: set<string>, definitions: map<string, Definition>) {
    && definitions.Keys == CatalogKeys(catalog)
    && forall i :: 0 <= i < |catalog| ==>
      && catalog[i].key in definitions
      && definitions[catalog[i].key] == Choose(catalog[i], requested)
      && (catalog[i].key in requested ==> catalog[i].status != Draft)
  }

  lemma ChooseNext(catalog: seq<Definition>, requested: set<string>, definitions: map<string, Definition>, d: Definition)
    requires Chosen(catalog, requested, definitions)
    requires d.key !in CatalogKeys(catalog)
    requires d.key in requested ==> d.status != Draft
    ensures Chosen(catalog + [d], requested, definitions[d.key := Choose(d, requested)])
    ensures CatalogKeys(catalog + [d]) == CatalogKeys(catalog) + {d.key}
  {
    assert (catalog + [d])[..|catalog|] == catalog;
  }

  /** Every request was met by an entry exactly when all of them name entries that are not drafts. */
  lemma ChosenIsComplete(catalog: seq<Definition>, requested: set<string>, definitions: map<string, Definition>)
    requires Chosen(catalog, requested, definitions)
    ensures requested <= CatalogKeys(catalog) <==> forall k :: k in requested ==> Enableable(k, catalog)
  {
    forall k | k in requested && k in CatalogKeys(catalog) ensures Enableable(k, catalog) {
      var i :| 0 <= i < |catalog| && catalog[i].key == k;
      assert catalog[i].status != Draft;
    }
  }

  /** Entry i adds its own key to those met. */
  lemma EntryAdds(catalog: seq<Definition>, i: nat)
    requires i < |catalog| && DistinctKeys(catalog)
    ensures catalog[..i + 1] == catalog[..i] + [catalog[i]]
    ensures CatalogKeys(catalog[..i + 1]) == CatalogKeys(catalog[..i]) + {catalog[i].key}
    ensures catalog[i].key !in CatalogKeys(catalog[..i])
  {
    assert catalog[..i + 1][..i] == catalog[..i];
  }

  lemma DraftIsRefused(catalog: seq<Definition>, i: nat)
    requires i < |catalog| && DistinctKeys(catalog) && catalog[i].status == Draft
    ensures !Enableable(catalog[i].key, catalog) && catalog[i].key in CatalogKeys(catalog)
  {}

  /** An entry is there as it was listed, switched on if it was asked for. */
  predicate EntryIn(keys: seq<string>, d: Definition, definitions: map<string, Definition>) {
    && d.key in definitions
    && (d.key in keys && d.key != "" ==> definitions[d.key] == d.(enabled := true))
    && (!(d.key in keys && d.key != "") ==> definitions[d.key] == d)
  }

  lemma ChosenEntries(keys: seq<string>, catalog: seq<Definition>, definitions: map<string, Definition>)
    requires Chosen(catalog, Requested(keys), definitions)
    ensures forall i :: 0 <= i < |catalog| ==> EntryIn(keys, catalog[i], definitions)
  {}

  /** The definitions by key, the requested ones switched on. The set of requests shrinks as the loop
      meets them; what is left over afterwards is unknown. */
  method EnabledCatalog(keys: seq<string>, catalog: seq<Definition>)
    returns (r: Result<map<string, Definition>, CatalogError>)
    requires DistinctKeys(catalog)
    ensures r.Ok? <==> forall k :: k in Requested(keys) ==> Enableable(k, catalog)
    ensures r.Ok? ==> Chosen(catalog, Requested(keys), r.value)
    ensures r.Ok? ==> forall i :: 0 <= i < |catalog| ==> EntryIn(keys, catalog[i], r.value)
    ensures r.Err? ==> r.error.key in Requested(keys)
    ensures r.Err? ==> (r.error.DraftRequested? <==> r.error.key in CatalogKeys(catalog))
  {
    var enabled := RequestedKeys(keys);
    ghost var requested := enabled;
    var definitions: map<string, Definition> := map[];
    for i := 0 to |catalog|
      invariant enabled == requested - CatalogKeys(catalog[..i])
      invariant Chosen(catalog[..i], requested, definitions)
    {
      var definition := catalog[i];
      EntryAdds(catalog, i);
      if definition.key in enabled {
        if definition.status == Draft {
          DraftIsRefused(catalog, i);
          return Err(DraftRequested(definition.key));
        }
        definition := definition.(enabled := true);
        enabled := enabled - {definition.key};
      }
      ChooseNext(catalog[..i], requested, definitions, catalog[i]);
      definitions := definitions[definition.key := definition];
    }
    assert catalog[..|catalog|] == catalog;
    ChosenIsComplete(catalog, requested, definitions);
    if enabled != {} {
      var key :| key in enabled;
      return Err(UnknownKey(key));
    }
    ChosenEntries(keys, catalog, definitions);
    r := Ok(definitions);
  }

  /** The first loop: the set of keys asked for. */
  method RequestedKeys(keys: seq<string>) returns (enabled: set<string>)
    ensures enabled == Requested(keys)
  {
    enabled := {};
    for i := 0 to |keys|
      invariant enabled == Requested(keys[..i])
    {
      assert keys[..i + 1][..i] == keys[..i];
      if keys[i] != "" {
        enabled := enabled + {keys[i]};
      }
    }
    assert keys[..|keys|] == keys;
  }

}
