/**
 * The listing half of the file manager (`GET /files/list`): one entry per name
 * of the directory whose `stat` succeeds, its size written as kilobytes with
 * one decimal, and the entries ordered directories first by a stable sort.
 */
module FileListing {
  import opened JsStrings

  /** What `fs.stat` reports about a name: whether it is a directory, its size in bytes. */
  datatype Stat = Stat(isDir: bool, size: nat)

  /** One element of the listing's JSON array. */
  datatype FileEntry = FileEntry(name: string, isDir: bool, size: string)

  // ---------------------------------------------------------------------------
  // Size labels: kilobytes with one decimal, then " KB"

  /** `size / 1024` in tenths, rounded to nearest with ties going up, as `toFixed(1)` does. */
  function Tenths(size: nat): nat {
    (size * 10 + 512) / 1024
  }

  /** Tenths picks the nearest tenth of a kilobyte, the larger one on a tie. */
  lemma TenthsNearest(size: nat)
    ensures -512 < Tenths(size) * 1024 - size * 10 <= 512
  {
  }

  /** `(size / 1024).toFixed(1) + " KB"`: a whole part, a point, one digit and the unit. */
  function SizeLabel(size: nat): (text: string)
    ensures |text| >= 6 && text[|text| - 5] == '.' && IsDigit(text[|text| - 4])
    ensures text[|text| - 3..] == " KB"
  {
    var t := Tenths(size);
    Decimal(t / 10) + "." + [DigitChar(t % 10)] + " KB"
  }

  /** The label is a numeral, a point, one digit and " KB"; read back, its
      digits are the rounded number of tenths. */
  lemma SizeLabelMeaning(size: nat)
    ensures var shown := SizeLabel(size);
      var whole := Decimal(Tenths(size) / 10);
      && |shown| == |whole| + 5
      && shown[..|whole|] == whole && shown[|whole|] == '.' && shown[|whole| + 2..] == " KB"
      && DigitsValue(whole) * 10 + (shown[|whole| + 1] as int - '0' as int) == Tenths(size)
  {
    var t := Tenths(size);
    var whole := Decimal(t / 10);
    var shown := SizeLabel(size);
    assert shown == whole + ['.', DigitChar(t % 10), ' ', 'K', 'B'];
    DecimalRoundTrip(t / 10);
  }

  // ---------------------------------------------------------------------------
  // Collecting the entries

  function EntryOf(name: string, st: Stat): FileEntry {
    FileEntry(name, st.isDir, SizeLabel(st.size))
  }

  /** The entries the loop over `readdir`'s names collects; `stats` holds the
      names whose `stat` succeeded, the others are skipped. */
  function Collected(names: seq<string>, stats: map<string, Stat>): (c: seq<FileEntry>)
    ensures |c| <= |names|
    ensures forall i :: 0 <= i < |c| ==> c[i].name in stats
    decreases |names|
  {
    if names == [] then []
    else
      var init := Collected(names[..|names| - 1], stats);
      var name := names[|names| - 1];
      if name in stats then init + [EntryOf(name, stats[name])] else init
  }

  /** The `for … of` loop of the listing route. */
  method CollectEntries(names: seq<string>, stats: map<string, Stat>) returns (fileData: seq<FileEntry>)
    ensures fileData == Collected(names, stats)
  {
    fileData := [];
    var i := 0;
    while i < |names|
      invariant 0 <= i <= |names|
      invariant fileData == Collected(names[..i], stats)
    {
      var file := names[i];
      assert names[..i + 1][..i] == names[..i];
      if file in stats {
        fileData := fileData + [EntryOf(file, stats[file])];
      }
      i := i + 1;
    }
    assert names[..|names|] == names;
  }

  /** Every collected entry describes a listed name whose stat succeeded, with
      that stat's kind and size; every such name is collected; nothing else is. */
  lemma {:induction false} CollectedSpec(names: seq<string>, stats: map<string, Stat>)
    ensures var c := Collected(names, stats);
      && |c| <= |names|
      && (forall i :: 0 <= i < |c| ==>
            c[i].name in names && c[i].name in stats && c[i] == EntryOf(c[i].name, stats[c[i].name]))
      && (forall n :: n in names && n in stats ==> exists i :: 0 <= i < |c| && c[i].name == n)
    decreases |names|
  {
    if names != [] {
      var init := names[..|names| - 1];
      CollectedSpec(init, stats);
      var c := Collected(names, stats);
      var last := names[|names| - 1];
      assert names == init + [last];
      forall n | n in names && n in stats
        ensures exists i :: 0 <= i < |c| && c[i].name == n
      {
        if n == last {
          assert c[|c| - 1].name == n;
        } else {
          assert n in init;
          var i :| 0 <= i < |Collected(init, stats)| && Collected(init, stats)[i].name == n;
          assert c[i] == Collected(init, stats)[i];
        }
      }
    }
  }

  // ---------------------------------------------------------------------------
  // Directories first

  /** The comparator handed to `sort`. */
  function Compare(a: FileEntry, b: FileEntry): (r: int)
    ensures -1 <= r <= 1
    ensures r < 0 <==> a.isDir && !b.isDir
    ensures r > 0 <==> !a.isDir && b.isDir
  {
    if a.isDir == b.isDir then 0 else if a.isDir then -1 else 1
  }

  /** The comparator is consistent (section 23.1.3.30 of ECMA-262): reversing
      its arguments negates it, and "not after" is transitive, so the order
      `sort` produces is well defined. */
  lemma CompareConsistent(a: FileEntry, b: FileEntry, c: FileEntry)
    ensures Compare(a, b) == -Compare(b, a)
    ensures Compare(a, b) <= 0 && Compare(b, c) <= 0 ==> Compare(a, c) <= 0
    ensures Compare(a, b) == 0 <==> a.isDir == b.isDir
  {
  }

  function Dirs(s: seq<FileEntry>): seq<FileEntry>
    decreases |s|
  {
    if s == [] then [] else (if s[0].isDir then [s[0]] else []) + Dirs(s[1..])
  }

  function Files(s: seq<FileEntry>): seq<FileEntry>
    decreases |s|
  {
    if s == [] then [] else (if s[0].isDir then [] else [s[0]]) + Files(s[1..])
  }

  /** What the stable `sort` with `Compare` leaves: the directories, then the
      files, each group in its original order. */
  function DirsFirst(s: seq<FileEntry>): (t: seq<FileEntry>)
    ensures multiset(t) == multiset(s)
  {
    FiltersMultiset(s);
    Dirs(s) + Files(s)
  }

  predicate Sorted(t: seq<FileEntry>) {
    forall i, j :: 0 <= i < j < |t| ==> Compare(t[i], t[j]) <= 0
  }

  lemma {:induction false} FiltersKinds(s: seq<FileEntry>)
    ensures forall i :: 0 <= i < |Dirs(s)| ==> Dirs(s)[i].isDir
    ensures forall i :: 0 <= i < |Files(s)| ==> !Files(s)[i].isDir
    decreases |s|
  {
    if s != [] {
      FiltersKinds(s[1..]);
    }
  }

  lemma {:induction false} FiltersMultiset(s: seq<FileEntry>)
    ensures multiset(Dirs(s)) + multiset(Files(s)) == multiset(s)
    decreases |s|
  {
    if s != [] {
      FiltersMultiset(s[1..]);
      assert s == [s[0]] + s[1..];
    }
  }

  lemma {:induction false} DirsAppend(a: seq<FileEntry>, b: seq<FileEntry>)
    ensures Dirs(a + b) == Dirs(a) + Dirs(b)
    decreases |a|
  {
    if a == [] {
      assert a + b == b;
    } else {
      assert (a + b)[0] == a[0] && (a + b)[1..] == a[1..] + b;
      DirsAppend(a[1..], b);
      var head := if a[0].isDir then [a[0]] else [];
      assert head + (Dirs(a[1..]) + Dirs(b)) == head + Dirs(a[1..]) + Dirs(b);
    }
  }

  lemma {:induction false} FilesAppend(a: seq<FileEntry>, b: seq<FileEntry>)
    ensures Files(a + b) == Files(a) + Files(b)
    decreases |a|
  {
    if a == [] {
      assert a + b == b;
    } else {
      assert (a + b)[0] == a[0] && (a + b)[1..] == a[1..] + b;
      FilesAppend(a[1..], b);
      var head := if a[0].isDir then [] else [a[0]];
      assert head + (Files(a[1..]) + Files(b)) == head + Files(a[1..]) + Files(b);
    }
  }

  /** Only directories: the filters keep all of them and no file. */
  lemma {:induction false} OnlyDirs(s: seq<FileEntry>)
    requires forall i :: 0 <= i < |s| ==> s[i].isDir
    ensures Dirs(s) == s && Files(s) == []
    decreases |s|
  {
    if s != [] {
      assert forall i :: 0 <= i < |s[1..]| ==> s[1..][i] == s[i + 1];
      OnlyDirs(s[1..]);
      assert s == [s[0]] + s[1..];
    }
  }

  /** Only files: the filters keep all of them and no directory. */
  lemma {:induction false} OnlyFiles(s: seq<FileEntry>)
    requires forall i :: 0 <= i < |s| ==> !s[i].isDir
    ensures Dirs(s) == [] && Files(s) == s
    decreases |s|
  {
    if s != [] {
      assert forall i :: 0 <= i < |s[1..]| ==> s[1..][i] == s[i + 1];
      OnlyFiles(s[1..]);
      assert s == [s[0]] + s[1..];
    }
  }

  /** The sorted listing has every directory before every file. */
  lemma DirsFirstSorted(s: seq<FileEntry>)
    ensures Sorted(DirsFirst(s))
  {
    FiltersKinds(s);
    var r := DirsFirst(s);
    forall i, j | 0 <= i < j < |r| ensures Compare(r[i], r[j]) <= 0 {
      if i < |Dirs(s)| {
        assert r[i] == Dirs(s)[i];
      } else {
        assert r[i] == Files(s)[i - |Dirs(s)|];
        assert r[j] == Files(s)[j - |Dirs(s)|];
      }
    }
  }

  /** Sorting neither loses nor adds an entry, and keeps the original order
      within the directories and within the files (the sort is stable). */
  lemma DirsFirstStable(s: seq<FileEntry>)
    ensures multiset(DirsFirst(s)) == multiset(s)
    ensures Dirs(DirsFirst(s)) == Dirs(s) && Files(DirsFirst(s)) == Files(s)
  {
    FiltersMultiset(s);
    FiltersKinds(s);
    DirsAppend(Dirs(s), Files(s));
    FilesAppend(Dirs(s), Files(s));
    OnlyDirs(Dirs(s));
    OnlyFiles(Files(s));
  }

  /** A sequence in comparator order is its directories followed by its files. */
  lemma {:induction false} SortedSplits(t: seq<FileEntry>)
    requires Sorted(t)
    ensures t == Dirs(t) + Files(t)
    decreases |t|
  {
    if t != [] {
      if t[0].isDir {
        assert Sorted(t[1..]) by {
          forall i, j | 0 <= i < j < |t[1..]| ensures Compare(t[1..][i], t[1..][j]) <= 0 {
            assert Compare(t[i + 1], t[j + 1]) <= 0;
          }
        }
        SortedSplits(t[1..]);
      } else {
        forall i | 0 <= i < |t| ensures !t[i].isDir {
          if i > 0 {
            assert Compare(t[0], t[i]) <= 0;
          }
        }
        OnlyFiles(t);
      }
    }
  }

  /** The stable sort is unique: any ordering of the entries that puts
      directories first and keeps the relative order inside both groups is
      `DirsFirst`. */
  lemma StableSortUnique(s: seq<FileEntry>, t: seq<FileEntry>)
    requires Sorted(t)
    requires Dirs(t) == Dirs(s) && Files(t) == Files(s)
    ensures t == DirsFirst(s)
  {
    SortedSplits(t);
  }
}
