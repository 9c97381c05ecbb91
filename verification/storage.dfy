/** Saved product setups in the browser's local storage (src/scripts.js:511-711).
    Every setup lives under the key 'elpc_' followed by the camel-cased,
    sanitized product name; the saved list shows the prefixed keys newest first.
    Storage itself is a map from key to setup; what the browser decides (whether
    storage exists, whether a write exceeds the quota, the clock) arrives as
    parameters. */
module Storage {
  import opened Text
  import opened Pricing

  datatype Option<T> = None | Some(value: T)

  /** The prefix of every key this page stores (line 511). */
  const Prefix: string := "elpc_"

  /** The key the support probe writes and removes (line 538). */
  const ProbeKey: string := "__storage_test__"

  predicate HasPrefix(key: string) {
    |Prefix| <= |key| && key[..|Prefix|] == Prefix
  }

  /** The storage key of a sanitized product name (line 573). */
  function StorageKey(saveName: string): (key: string)
    ensures HasPrefix(key)
    ensures saveName != [] ==> |key| > |Prefix|
    ensures key[|Prefix|..] == ToCamelCase(saveName)
  {
    Prefix + ToCamelCase(saveName)
  }

  /** The probe's key is never the key of a setup. */
  lemma ProbeKeyIsNotASetupKey(saveName: string)
    ensures !HasPrefix(ProbeKey) && StorageKey(saveName) != ProbeKey
  {
    assert ProbeKey[0] == '_' && Prefix[0] == 'e';
  }

  /** Two names that differ only in letter case are saved under the same key, so
      the later save replaces the earlier (lines 15, 19, 564, 573). */
  lemma CaseInsensitiveKeys(a: string, b: string)
    requires Lower(a) == Lower(b)
    ensures StorageKey(Sanitize(a)) == StorageKey(Sanitize(b))
  {
    CaseInsensitiveIdentifier(a, b);
  }

  /** One row of a line-item list as saved: its name, and its two numeric fields as
      the input text (quantity and cost, or hours and rate). */
  datatype LineRow = LineRow(name: string, first: string, second: string)

  /** A saved setup (lines 574-585). */
  datatype Setup = Setup(
    name: string,
    expenses: seq<LineRow>,
    labor: seq<LineRow>,
    shipping: string,
    tax: string,
    adFactor: OffsiteAdMode,
    adRate: string,
    taxFactor: IncomeTaxMode,
    taxRate: string,
    timeStamp: int)

  /** What the save form holds when Save is pressed. */
  datatype SaveForm = SaveForm(
    nameText: string,
    expenses: seq<LineRow>,
    labor: seq<LineRow>,
    shipping: string,
    tax: string,
    adRate: string,
    taxRate: string)

  /** A row as saved: its name sanitized, its fields as typed. */
  function CleanRow(row: LineRow): LineRow {
    row.(name := Sanitize(row.name))
  }

  /** f applied to every row, in order. */
  function MapRows(f: LineRow -> LineRow, rows: seq<LineRow>): (r: seq<LineRow>)
    ensures |r| == |rows|
  {
    if rows == [] then [] else MapRows(f, rows[..|rows| - 1]) + [f(rows[|rows| - 1])]
  }

  /** Every row, in order, its name sanitized. */
  function CleanRows(rows: seq<LineRow>): seq<LineRow> {
    MapRows(CleanRow, rows)
  }

  /** Entry i of a mapped list is f of row i. */
  lemma {:induction false} MapRowsAt(f: LineRow -> LineRow, rows: seq<LineRow>, i: int)
    requires 0 <= i < |rows|
    ensures MapRows(f, rows)[i] == f(rows[i])
  {
    var n := |rows| - 1;
    if i < n {
      assert rows[..n][i] == rows[i];
      MapRowsAt(f, rows[..n], i);
    }
  }

  /** The forEach loops of lines 587-602. */
  method SnapshotRows(rows: seq<LineRow>) returns (entries: seq<LineRow>)
    ensures entries == CleanRows(rows)
  {
    entries := [];
    var i := 0;
    while i < |rows|
      invariant 0 <= i <= |rows|
      invariant entries == MapRows(CleanRow, rows[..i])
    {
      assert rows[..i + 1][..i] == rows[..i];
      entries := entries + [CleanRow(rows[i])];
      i := i + 1;
    }
    assert rows[..i] == rows;
  }

  /** A saved row name has no angle brackets and no doubled whitespace. */
  lemma SavedRowNamesAreClean(row: LineRow)
    ensures forall c :: c in CleanRow(row).name ==> !IsAngle(c)
    ensures var n := CleanRow(row).name;
      forall i :: 0 <= i < |n| - 1 ==> !(IsSpace(n[i]) && IsSpace(n[i + 1]))
  {
  }

  /** What the support probe observed (lines 536-549). */
  datatype Probe =
    | StorageUndefined
    | ProbeSucceeded
    | ProbeThrew(quotaExceeded: bool)

  /** The outcome of a save (lines 563-632). */
  datatype SaveOutcome =
    | EmptyName
    | WriteFailed
    | Saved(key: string, updated: bool)

  /** Storage entries are newest first in listing. */
  predicate NewestFirst(items: map<string, Setup>, listing: seq<string>)
    requires forall i :: 0 <= i < |listing| ==> listing[i] in items
  {
    forall i, j :: 0 <= i < j < |listing| ==> items[listing[i]].timeStamp >= items[listing[j]].timeStamp
  }

  /** Every key appears at most once in listing. */
  predicate Distinct(listing: seq<string>) {
    forall i, j :: 0 <= i < j < |listing| ==> listing[i] != listing[j]
  }

  class SetupStore {
    /** The stored entries, by key. */
    var items: map<string, Setup>

    constructor (items: map<string, Setup>)
      ensures this.items == items
    {
      this.items := items;
    }

    /** isStorageSupported (lines 535-550): a successful probe leaves storage as it
        was; a probe that throws still counts as support when the error is the
        quota error and storage already holds something. */
    method IsStorageSupported(probe: Probe) returns (supported: bool)
      ensures probe.StorageUndefined? ==> !supported
      ensures probe.ProbeSucceeded? ==> supported
      ensures probe.ProbeThrew? ==> (supported <==> probe.quotaExceeded && |items| > 0)
    {
      match probe
      case StorageUndefined =>
        supported := false;
      case ProbeSucceeded =>
        supported := true;
      case ProbeThrew(quotaExceeded) =>
        supported := quotaExceeded && |items| > 0;
    }

    /** saveProductSetup (lines 563-632). An empty sanitized name writes nothing. A
        write that storage refuses writes nothing: writeRefused stands for any error
        the write throws (a full quota, storage switched off), all of which the
        catch at line 607 handles alike. Otherwise exactly one entry is written, at
        the key of the sanitized name, replacing any entry there. */
    method SaveProductSetup(form: SaveForm, adFactor: OffsiteAdMode, taxFactor: IncomeTaxMode, now: int, writeRefused: bool)
      returns (outcome: SaveOutcome)
      modifies this
      ensures var saveName := Sanitize(form.nameText);
        && (saveName == [] ==> outcome == EmptyName && items == old(items))
        && (saveName != [] && writeRefused ==> outcome == WriteFailed && items == old(items))
        && (saveName != [] && !writeRefused ==>
              && outcome == Saved(StorageKey(saveName), StorageKey(saveName) in old(items))
              && StorageKey(saveName) in items && HasPrefix(StorageKey(saveName))
              && items == old(items)[StorageKey(saveName) := items[StorageKey(saveName)]])
      ensures outcome.Saved? ==>
        var setup := items[outcome.key];
        && setup.name == Sanitize(form.nameText)
        && |setup.expenses| == |form.expenses|
        && (forall i :: 0 <= i < |form.expenses| ==> setup.expenses[i] == CleanRow(form.expenses[i]))
        && |setup.labor| == |form.labor|
        && (forall i :: 0 <= i < |form.labor| ==> setup.labor[i] == CleanRow(form.labor[i]))
        && setup.shipping == form.shipping && setup.tax == form.tax
        && setup.adFactor == adFactor && setup.adRate == form.adRate
        && setup.taxFactor == taxFactor && setup.taxRate == form.taxRate
        && setup.timeStamp == now
    {
      var saveName := Sanitize(form.nameText);
      if saveName == [] {
        return EmptyName;
      }
      var keyName := Prefix + ToCamelCase(saveName);
      var expenses := SnapshotRows(form.expenses);
      var labor := SnapshotRows(form.labor);
      forall i | 0 <= i < |form.expenses|
        ensures expenses[i] == CleanRow(form.expenses[i])
      {
        MapRowsAt(CleanRow, form.expenses, i);
      }
      forall i | 0 <= i < |form.labor|
        ensures labor[i] == CleanRow(form.labor[i])
      {
        MapRowsAt(CleanRow, form.labor, i);
      }
      var setup := Setup(saveName, expenses, labor, form.shipping, form.tax, adFactor, form.adRate,
                         taxFactor, form.taxRate, now);
      if writeRefused {
        return WriteFailed;
      }
      var updated := keyName in items;
      items := items[keyName := setup];
      outcome := Saved(keyName, updated);
    }

    /** getSingleSetup (lines 646-649): the setup stored under key, or nothing. */
    function GetSingleSetup(key: string): (r: Option<Setup>)
      reads this
      ensures r.Some? <==> key in items
      ensures r.Some? ==> r.value == items[key]
    {
      if key in items then Some(items[key]) else None
    }

    /** The confirm-delete handler (lines 708-711): the entry is removed; every
        other entry stays. */
    method ConfirmDelete(key: string)
      modifies this
      ensures items == old(items) - {key}
      ensures GetSingleSetup(key) == None
    {
      items := items - {key};
    }

    /** loadSavedSetups (lines 635-644): the prefixed keys, each once, newest first. */
    method LoadSavedSetups() returns (listing: seq<string>)
      ensures forall i :: 0 <= i < |listing| ==> listing[i] in items
      ensures forall k :: k in listing <==> k in items && HasPrefix(k)
      ensures Distinct(listing)
      ensures NewestFirst(items, listing)
    {
      listing := [];
      var remaining := items.Keys;
      while remaining != {}
        invariant remaining <= items.Keys
        invariant forall i :: 0 <= i < |listing| ==> listing[i] in items
        invariant forall x :: x in listing ==> x in items && HasPrefix(x) && x !in remaining
        invariant forall k :: k in items && HasPrefix(k) && k !in remaining ==> k in listing
        invariant Distinct(listing)
        invariant NewestFirst(items, listing)
        decreases |remaining|
      {
        var k :| k in remaining;
        remaining := remaining - {k};
        if HasPrefix(k) {
          listing := InsertNewestFirst(items, listing, k);
        }
      }
    }
  }

  /** Inserts key after every entry at least as new and before the first older one. */
  method InsertNewestFirst(items: map<string, Setup>, listing: seq<string>, key: string) returns (r: seq<string>)
    requires key in items && key !in listing
    requires forall i :: 0 <= i < |listing| ==> listing[i] in items
    requires NewestFirst(items, listing) && Distinct(listing)
    ensures |r| == |listing| + 1
    ensures forall x :: x in r <==> x in listing || x == key
    ensures forall i :: 0 <= i < |r| ==> r[i] in items
    ensures NewestFirst(items, r) && Distinct(r)
  {
    var t := items[key].timeStamp;
    var i := 0;
    while i < |listing| && items[listing[i]].timeStamp >= t
      invariant 0 <= i <= |listing|
      invariant forall j :: 0 <= j < i ==> items[listing[j]].timeStamp >= t
    {
      i := i + 1;
    }
    assert forall j :: i <= j < |listing| ==> items[listing[j]].timeStamp < t by {
      if i < |listing| {
        assert items[listing[i]].timeStamp < t;
      }
    }
    r := listing[..i] + [key] + listing[i..];
    SpliceMembers(listing, i, key);
    SpliceKeepsOrder(items, listing, i, key);
  }

  /** The members of listing with key spliced in at position i. */
  lemma SpliceMembers(listing: seq<string>, i: int, key: string)
    requires 0 <= i <= |listing|
    ensures var r := listing[..i] + [key] + listing[i..];
      |r| == |listing| + 1 && forall x :: x in r <==> x in listing || x == key
  {
    var r := listing[..i] + [key] + listing[i..];
    forall x
      ensures x in r <==> x in listing || x == key
    {
      if x in listing {
        var j :| 0 <= j < |listing| && listing[j] == x;
        if j < i {
          assert r[j] == x;
        } else {
          assert r[j + 1] == x;
        }
      }
    }
  }

  /** Splicing a new key between the entries at least as new and the older ones
      keeps the listing newest first and free of repeats. */
  lemma SpliceKeepsOrder(items: map<string, Setup>, listing: seq<string>, i: int, key: string)
    requires 0 <= i <= |listing| && key in items && key !in listing
    requires forall j :: 0 <= j < |listing| ==> listing[j] in items
    requires NewestFirst(items, listing) && Distinct(listing)
    requires forall j :: 0 <= j < i ==> items[listing[j]].timeStamp >= items[key].timeStamp
    requires forall j :: i <= j < |listing| ==> items[listing[j]].timeStamp < items[key].timeStamp
    ensures var r := listing[..i] + [key] + listing[i..];
      && (forall j :: 0 <= j < |r| ==> r[j] in items)
      && NewestFirst(items, r) && Distinct(r)
  {
    var r := listing[..i] + [key] + listing[i..];
    assert forall j :: 0 <= j < i ==> r[j] == listing[j];
    assert r[i] == key;
    assert forall j :: i < j < |r| ==> r[j] == listing[j - 1];
    forall p, q | 0 <= p < q < |r|
      ensures items[r[p]].timeStamp >= items[r[q]].timeStamp && r[p] != r[q]
    {
      if q < i {
        assert r[p] == listing[p] && r[q] == listing[q];
      } else if q == i {
        assert r[p] == listing[p];
      } else if p < i {
        assert r[p] == listing[p] && r[q] == listing[q - 1];
      } else if p == i {
        assert r[q] == listing[q - 1];
      } else {
        assert r[p] == listing[p - 1] && r[q] == listing[q - 1];
      }
    }
  }
}
