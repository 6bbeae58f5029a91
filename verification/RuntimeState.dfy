/**
 The plugin's persisted bindings: an insertion-ordered map from workspace
 identifiers, rewritten to one file after every change.

 The map is a sequence of bindings with distinct identifiers.  Overwriting a
 key keeps its position, as a JavaScript Map does.
 */
module RuntimeState {
  import opened Wrappers
  import opened Leases

  datatype Status = Creating | Ready | Failed | Removed

  datatype Binding = Binding(
    workspaceID: string, provider: string, host: string, remotePort: int, localPort: int, token: string,
    leaseMode: LeaseMode, status: Status, tunnelPID: Option<int>, sessionID: Option<string>)

  // ---------- The ordered map ----------

  ghost predicate UniqueIDs(bs: seq<Binding>) {
    forall i, j :: 0 <= i < j < |bs| ==> bs[i].workspaceID != bs[j].workspaceID
  }

  predicate Bound(bs: seq<Binding>, id: string) {
    exists b :: b in bs && b.workspaceID == id
  }

  function Lookup(bs: seq<Binding>, id: string): Option<Binding> {
    if bs == [] then None
    else if bs[0].workspaceID == id then Some(bs[0])
    else Lookup(bs[1..], id)
  }

  function Stored(bs: seq<Binding>, b: Binding): seq<Binding> {
    if bs == [] then [b]
    else if bs[0].workspaceID == b.workspaceID then [b] + bs[1..]
    else [bs[0]] + Stored(bs[1..], b)
  }

  function Deleted(bs: seq<Binding>, id: string): seq<Binding> {
    if bs == [] then []
    else if bs[0].workspaceID == id then bs[1..]
    else [bs[0]] + Deleted(bs[1..], id)
  }

  lemma {:induction false} LookupSpec(bs: seq<Binding>, id: string)
    ensures match Lookup(bs, id)
      case None => !Bound(bs, id)
      case Some(b) => b in bs && b.workspaceID == id
  {
    if bs != [] && bs[0].workspaceID != id {
      LookupSpec(bs[1..], id);
      assert forall b :: b in bs ==> b == bs[0] || b in bs[1..];
    }
  }

  /** A new key goes to the end, a known key keeps its position. */
  lemma {:induction false} StoredAt(bs: seq<Binding>, b: Binding)
    ensures !Bound(bs, b.workspaceID) ==> Stored(bs, b) == bs + [b]
    ensures Bound(bs, b.workspaceID) ==>
      exists k :: 0 <= k < |bs| && bs[k].workspaceID == b.workspaceID && Stored(bs, b) == bs[k := b]
  {
    if bs == [] {
    } else if bs[0].workspaceID == b.workspaceID {
      assert Stored(bs, b) == bs[0 := b];
      assert bs[0] in bs;
    } else {
      var rest := bs[1..];
      StoredAt(rest, b);
      assert forall c :: c in bs <==> c == bs[0] || c in rest;
      if Bound(rest, b.workspaceID) {
        var k :| 0 <= k < |rest| && rest[k].workspaceID == b.workspaceID && Stored(rest, b) == rest[k := b];
        assert Stored(bs, b) == bs[k + 1 := b];
      } else {
        assert Stored(bs, b) == bs + [b];
      }
    }
  }

  lemma StoredSpec(bs: seq<Binding>, b: Binding)
    requires UniqueIDs(bs)
    ensures UniqueIDs(Stored(bs, b))
    ensures forall c :: c in Stored(bs, b) <==> c == b || (c in bs && c.workspaceID != b.workspaceID)
    ensures !Bound(bs, b.workspaceID) ==> Stored(bs, b) == bs + [b]
  {
    StoredAt(bs, b);
    if Bound(bs, b.workspaceID) {
      var k :| 0 <= k < |bs| && bs[k].workspaceID == b.workspaceID && Stored(bs, b) == bs[k := b];
      forall c | c in bs && c.workspaceID != b.workspaceID ensures c in bs[k := b] {
        var m :| 0 <= m < |bs| && bs[m] == c;
        assert bs[k := b][m] == c;
      }
      assert bs[k := b][k] == b;
    }
  }

  lemma UniqueTail(bs: seq<Binding>)
    requires UniqueIDs(bs) && bs != []
    ensures UniqueIDs(bs[1..]) && forall c :: c in bs[1..] ==> c.workspaceID != bs[0].workspaceID
    ensures forall c :: c in bs <==> c == bs[0] || c in bs[1..]
  {
    assert bs == [bs[0]] + bs[1..];
    forall c | c in bs[1..] ensures c.workspaceID != bs[0].workspaceID {
      var k :| 0 <= k < |bs| - 1 && bs[1..][k] == c;
      assert bs[k + 1] == c;
    }
  }

  lemma UniqueCons(b: Binding, rest: seq<Binding>)
    requires UniqueIDs(rest) && forall c :: c in rest ==> c.workspaceID != b.workspaceID
    ensures UniqueIDs([b] + rest) && forall c :: c in [b] + rest <==> c == b || c in rest
  {
  }

  lemma {:induction false} DeletedSpec(bs: seq<Binding>, id: string)
    requires UniqueIDs(bs)
    ensures UniqueIDs(Deleted(bs, id))
    ensures forall c :: c in Deleted(bs, id) <==> c in bs && c.workspaceID != id
    ensures !Bound(bs, id) ==> Deleted(bs, id) == bs
  {
    if bs != [] {
      UniqueTail(bs);
      if bs[0].workspaceID != id {
        DeletedSpec(bs[1..], id);
        UniqueCons(bs[0], Deleted(bs[1..], id));
        assert !Bound(bs, id) ==> !Bound(bs[1..], id);
        assert bs == [bs[0]] + bs[1..];
      } else {
        assert bs[0] in bs && Bound(bs, id);
      }
    }
  }

  /** The other bindings keep their order. */
  lemma {:induction false} DeletedAt(bs: seq<Binding>, k: nat)
    requires UniqueIDs(bs) && k < |bs|
    ensures Deleted(bs, bs[k].workspaceID) == bs[..k] + bs[k + 1..]
  {
    if k == 0 {
      assert bs[..0] + bs[1..] == bs[1..];
    } else {
      UniqueTail(bs);
      DeletedAt(bs[1..], k - 1);
      assert bs[1..][k - 1] == bs[k];
      assert [bs[0]] + (bs[1..][..k - 1] + bs[1..][k..]) == bs[..k] + bs[k + 1..];
    }
  }

  /** Deleting what was just appended restores the map, order included. */
  lemma {:induction false} DeleteUndoesStore(bs: seq<Binding>, b: Binding)
    requires !Bound(bs, b.workspaceID)
    ensures Deleted(Stored(bs, b), b.workspaceID) == bs
  {
    if bs != [] {
      assert bs[0] in bs && bs[0].workspaceID != b.workspaceID;
      assert forall c :: c in bs[1..] ==> c in bs;
      DeleteUndoesStore(bs[1..], b);
    }
  }

  // ---------- The file ----------

  /** One element of the persisted array: an object read as a binding, or anything else. */
  datatype Item = Junk | Entry(binding: Binding)

  datatype Text = Absent | Malformed | NotAnArray | Items(items: seq<Item>)

  /** The four strings an entry must have to be kept. */
  predicate Complete(b: Binding) {
    b.workspaceID != "" && b.provider != "" && b.host != "" && b.token != ""
  }

  function LoadItems(items: seq<Item>): seq<Binding> {
    if items == [] then []
    else
      var front, last := LoadItems(items[..|items| - 1]), items[|items| - 1];
      if last.Entry? && Complete(last.binding) then Stored(front, last.binding) else front
  }

  function Load(text: Text): seq<Binding> {
    if text.Items? then LoadItems(text.items) else []
  }

  function Save(bs: seq<Binding>): Text {
    Items(seq(|bs|, i requires 0 <= i < |bs| => Entry(bs[i])))
  }

  function CompleteOnes(bs: seq<Binding>): seq<Binding> {
    if bs == [] then []
    else CompleteOnes(bs[..|bs| - 1]) + if Complete(bs[|bs| - 1]) then [bs[|bs| - 1]] else []
  }

  lemma {:induction false} CompleteOnesSpec(bs: seq<Binding>)
    ensures forall b :: b in CompleteOnes(bs) <==> b in bs && Complete(b)
    ensures |CompleteOnes(bs)| <= |bs|
    ensures CompleteOnes(bs) == bs <==> forall b :: b in bs ==> Complete(b)
  {
    if bs != [] {
      var front, last := bs[..|bs| - 1], bs[|bs| - 1];
      CompleteOnesSpec(front);
      assert bs == front + [last];
    }
  }

  lemma {:induction false} LoadSavedItems(bs: seq<Binding>)
    requires UniqueIDs(bs)
    ensures Load(Save(bs)) == CompleteOnes(bs)
  {
    if bs != [] {
      var front, last := bs[..|bs| - 1], bs[|bs| - 1];
      LoadSavedItems(front);
      var items := Save(bs).items;
      assert items[..|items| - 1] == Save(front).items && items[|items| - 1] == Entry(last);
      CompleteOnesSpec(front);
      assert !Bound(front, last.workspaceID);
      assert !Bound(CompleteOnes(front), last.workspaceID);
      UniqueSubset(front);
      StoredSpec(CompleteOnes(front), last);
    }
  }

  lemma {:induction false} UniqueSubset(bs: seq<Binding>)
    requires UniqueIDs(bs)
    ensures UniqueIDs(CompleteOnes(bs))
  {
    if bs != [] {
      var front, last := bs[..|bs| - 1], bs[|bs| - 1];
      UniqueSubset(front);
      CompleteOnesSpec(front);
      forall k | 0 <= k < |CompleteOnes(front)| ensures CompleteOnes(front)[k].workspaceID != last.workspaceID {
        assert CompleteOnes(front)[k] in front;
      }
    }
  }

  /** Loading what was saved restores every binding in insertion order, if and only if all of them are complete. */
  lemma LoadAfterSave(bs: seq<Binding>)
    requires UniqueIDs(bs)
    ensures Load(Save(bs)) == bs <==>
      forall b :: b in bs ==> b.workspaceID != "" && b.provider != "" && b.host != "" && b.token != ""
  {
    LoadSavedItems(bs);
    CompleteOnesSpec(bs);
  }

  lemma {:induction false} LoadItemsUnique(items: seq<Item>)
    ensures UniqueIDs(LoadItems(items)) && forall b :: b in LoadItems(items) ==> Complete(b)
  {
    if items != [] {
      LoadItemsUnique(items[..|items| - 1]);
      if items[|items| - 1].Entry? {
        StoredSpec(LoadItems(items[..|items| - 1]), items[|items| - 1].binding);
      }
    }
  }

  /** The entry at `k` counts: it is a binding with the four strings, and no such entry after it has its identifier. */
  ghost predicate Counts(items: seq<Item>, k: nat)
    requires k < |items|
  {
    && Keeps(items, k)
    && forall m :: k < m < |items| && Keeps(items, m) ==> items[m].binding.workspaceID != items[k].binding.workspaceID
  }

  ghost predicate Keeps(items: seq<Item>, k: nat)
    requires k < |items|
  {
    && items[k].Entry?
    && var b := items[k].binding; b.workspaceID != "" && b.provider != "" && b.host != "" && b.token != ""
  }

  /** What a file loads to: the entries that count, whatever else is in it; and nothing from a file that is no array. */
  lemma {:induction false} LoadsWhatCounts(items: seq<Item>)
    ensures forall b :: b in LoadItems(items) <==>
      exists k :: 0 <= k < |items| && Counts(items, k) && items[k].binding == b
    ensures forall text: Text :: !text.Items? ==> Load(text) == []
  {
    if items != [] {
      var n := |items| - 1;
      var front, last := items[..n], items[n];
      LoadsWhatCounts(front);
      LoadItemsUnique(front);
      forall k | 0 <= k < n
        ensures Counts(items, k) <==>
          Counts(front, k) && !(Keeps(items, n) && last.binding.workspaceID == items[k].binding.workspaceID)
      {
        CountsInFront(items, k);
      }
      if Keeps(items, n) {
        StoredSpec(LoadItems(front), last.binding);
        assert Counts(items, n);
      }
    }
  }

  lemma CountsInFront(items: seq<Item>, k: nat)
    requires k < |items| - 1
    ensures
      var n := |items| - 1;
      Counts(items, k) <==>
      && Counts(items[..n], k)
      && !(Keeps(items, n) && Keeps(items, k) && items[n].binding.workspaceID == items[k].binding.workspaceID)
  {
    var n := |items| - 1;
    assert forall m :: 0 <= m < n ==> Keeps(items, m) == Keeps(items[..n], m);
  }

  class StateFile {
    var text: Text

    constructor (text: Text)
      ensures this.text == text
    {
      this.text := text;
    }
  }

  class BindingStore {
    const file: StateFile
    var bindings: seq<Binding>

    /** The file is what was loaded or what was saved last. */
    ghost predicate Valid()
      reads this, file
    {
      UniqueIDs(bindings) && (file.text == Save(bindings) || Load(file.text) == bindings)
    }

    /** Either way, loading it again gives back the stored bindings that are complete. */
    lemma LoadsAgain()
      requires Valid()
      ensures Load(file.text) == CompleteOnes(bindings)
    {
      LoadSavedItems(bindings);
      if Load(file.text) == bindings && file.text.Items? {
        LoadItemsUnique(file.text.items);
      }
      CompleteOnesSpec(bindings);
    }

    constructor (file: StateFile)
      ensures Valid() && this.file == file && bindings == Load(file.text)
    {
      this.file := file;
      bindings := [];
      new;
      if !file.text.Items? {
        return;
      }
      var items := file.text.items;
      for i := 0 to |items|
        invariant bindings == LoadItems(items[..i])
      {
        assert items[..i + 1][..i] == items[..i];
        if items[i].Entry? && Complete(items[i].binding) {
          bindings := Stored(bindings, items[i].binding);
        }
      }
      assert items[..|items|] == items;
      LoadItemsUnique(items);
    }

    /** `set` and `replace` are the same code. */
    method Set(b: Binding)
      requires Valid()
      modifies this, file
      ensures Valid() && bindings == Stored(old(bindings), b) && file.text == Save(bindings)
    {
      StoredSpec(bindings, b);
      bindings := Stored(bindings, b);
      file.text := Save(bindings);
    }

    method Delete(workspaceID: string)
      requires Valid()
      modifies this, file
      ensures Valid() && bindings == Deleted(old(bindings), workspaceID) && file.text == Save(bindings)
    {
      DeletedSpec(bindings, workspaceID);
      bindings := Deleted(bindings, workspaceID);
      file.text := Save(bindings);
    }
  }
}
