/**
 * The note list: the `item` type shown by the list widget and `listFiles`,
 * which turns the vault's directory entries into items.
 */
module NoteList {
  import opened Wrappers
  import opened FileNames
  import opened Vault

  /** A list entry: the file name as title, its modification time as description. */
  datatype Item = Item(title: string, desc: string) {
    function Title(): string { title }
    function Description(): string { desc }
    /** The list widget filters on this value. */
    function FilterValue(): string { title }
  }

  /** listFiles keeps an entry when it is not a directory and its Info() lookup succeeded. */
  predicate Shown(e: DirEntry) {
    !e.isDir && e.info.Some?
  }

  /** The item listFiles builds for a shown entry: titled by the entry's
      name, described by its Info() result, and filtered on its title. */
  lemma ItemOfEntry(e: DirEntry)
    requires Shown(e)
    ensures var it := Item(e.name, e.info.value);
            it.Title() == e.name && it.Description() == e.info.value && it.FilterValue() == it.Title()
  {
  }

  /** The items listFiles appends for `entries`, in order. */
  function Listed(entries: seq<DirEntry>): seq<Item>
  {
    if entries == [] then []
    else
      var last := entries[|entries| - 1];
      Listed(entries[..|entries| - 1]) + (if Shown(last) then [Item(last.name, last.info.value)] else [])
  }

  /** The list refreshed from the vault as it is now. */
  function Listing(d: Disk, stamps: map<string, string>): seq<Item> {
    Listed(ReadDir(d, stamps))
  }

  function Titles(items: seq<Item>): (r: seq<string>)
    ensures |r| == |items| && forall i :: 0 <= i < |r| ==> r[i] == items[i].title
  {
    seq(|items|, i requires 0 <= i < |items| => items[i].title)
  }

  /** listFiles (without its ReadDir failure, which aborts the program and
      is reported here as None). */
  method ListFiles(vault: Store, stamps: map<string, string>, readDirFails: bool) returns (r: Option<seq<Item>>)
    ensures r.None? <==> readDirFails
    ensures r.Some? ==> r.value == Listing(vault.Snapshot(), stamps)
  {
    var entries := vault.ReadDirectory(stamps, readDirFails);
    if entries.None? {
      return None;
    }
    var es := entries.value;
    var items: seq<Item> := [];
    for i := 0 to |es|
      invariant items == Listed(es[..i])
    {
      var entry := es[i];
      assert es[..i + 1][..i] == es[..i];
      if !entry.isDir {
        match entry.info {
          case None =>
          case Some(modTime) =>
            items := items + [Item(entry.name, modTime)];
        }
      }
    }
    assert es[..|es|] == es;
    r := Some(items);
  }

  /** An item is listed exactly when some entry is shown under that title and description. */
  lemma {:induction false} ListedMembers(entries: seq<DirEntry>, it: Item)
    ensures it in Listed(entries) <==>
            exists i :: 0 <= i < |entries| && Shown(entries[i]) && it == Item(entries[i].name, entries[i].info.value)
    decreases |entries|
  {
    if entries != [] {
      var n := |entries| - 1;
      var init := entries[..n];
      ListedMembers(init, it);
      if it in Listed(entries) && it !in Listed(init) {
        assert Shown(entries[n]) && it == Item(entries[n].name, entries[n].info.value);
      }
      if exists i :: 0 <= i < |entries| && Shown(entries[i]) && it == Item(entries[i].name, entries[i].info.value) {
        var i :| 0 <= i < |entries| && Shown(entries[i]) && it == Item(entries[i].name, entries[i].info.value);
        if i < n {
          assert init[i] == entries[i];
        }
      }
    }
  }

  /** listFiles keeps the enumeration order: sorted names give sorted titles. */
  lemma {:induction false} ListedAscending(entries: seq<DirEntry>)
    requires Ascending(Names(entries))
    ensures Ascending(Titles(Listed(entries)))
    decreases |entries|
  {
    if entries != [] {
      var n := |entries| - 1;
      var init := entries[..n];
      assert Names(init) == Names(entries)[..n];
      ListedAscending(init);
      var last := entries[n];
      if Shown(last) {
        var head := Titles(Listed(init));
        var all := Titles(Listed(entries));
        assert all == head + [last.name];
        forall k | 0 <= k < |head|
          ensures NameLt(head[k], last.name)
        {
          var it := Listed(init)[k];
          ListedMembers(init, it);
          var i :| 0 <= i < |init| && Shown(init[i]) && it == Item(init[i].name, init[i].info.value);
          assert Names(entries)[i] == head[k] && Names(entries)[n] == last.name;
        }
      } else {
        assert Listed(entries) == Listed(init);
      }
    }
  }

  /** A refreshed listing holds exactly the vault's files whose Info() lookup
      succeeds, each titled by its name and described by that lookup. */
  lemma ListingExactly(d: Disk, stamps: map<string, string>, it: Item)
    ensures it in Listing(d, stamps) <==>
            it.title in d.files && d.files[it.title].File? && it.title in stamps && it.desc == stamps[it.title]
  {
    var es := ReadDir(d, stamps);
    ReadDirEntries(d, stamps);
    ListedMembers(es, it);
    if it.title in d.files && d.files[it.title].File? && it.title in stamps && it.desc == stamps[it.title] {
      assert it.title in Names(es);
      var i :| 0 <= i < |es| && Names(es)[i] == it.title;
      assert Shown(es[i]) && it == Item(es[i].name, es[i].info.value);
    }
  }

  /** A refreshed listing is in os.ReadDir's order: strictly ascending titles. */
  lemma ListingAscending(d: Disk, stamps: map<string, string>)
    ensures Ascending(Titles(Listing(d, stamps)))
  {
    ReadDirEntries(d, stamps);
    ListedAscending(ReadDir(d, stamps));
  }

  /** The title of a listed item, which the application uses as a path, names
      a file of the vault, and the widget filters on that same title. */
  lemma ListedTitleIsFile(d: Disk, stamps: map<string, string>, t: string)
    ensures t in Titles(Listing(d, stamps)) <==> t in d.files && d.files[t].File? && t in stamps
    ensures forall it :: it in Listing(d, stamps) ==>
              it.FilterValue() == it.Title() && it.Title() in stamps && it.Description() == stamps[it.Title()]
  {
    var items := Listing(d, stamps);
    if t in Titles(items) {
      var k :| 0 <= k < |items| && Titles(items)[k] == t;
      ListingExactly(d, stamps, items[k]);
    }
    if t in d.files && d.files[t].File? && t in stamps {
      ListingExactly(d, stamps, Item(t, stamps[t]));
      var k :| 0 <= k < |items| && items[k] == Item(t, stamps[t]);
      assert Titles(items)[k] == t;
    }
    forall it | it in items
      ensures it.FilterValue() == it.Title() && it.Title() in stamps && it.Description() == stamps[it.Title()]
    {
      ListingExactly(d, stamps, it);
    }
  }
}
