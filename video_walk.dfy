/** The walk the 0.4.0 and 0.5.0 storage migrations share: every entry of
    the video table `video/` that is a directory holding a `metadata.json`
    is visited, and in it every entry of its `content/` directory (when
    that is a directory) is a content item whose file `file` may be
    rewritten. What happens to one item is the step's `Plan`: a function of
    the item's `metadata.json` text and of the text of `file` (each None
    when there is no such file) that raises, leaves the item alone (None),
    or gives the new text of `file`.

    Every item is looked at once, and an item's plan reads and writes only
    files of that item, so the outcome does not depend on the order in
    which the directories are listed: when no item raises, the walk leaves
    exactly `Rewritten(plan, fs, tableP, file)`, and it raises exactly when
    some item's plan does. */
module VideoWalk {
  import opened Wrappers
  import opened Disk

  const MetadataJson: string := "metadata.json"
  const Content: string := "content"

  /** What one content item's step does, from the texts of its
      `metadata.json` and of the rewritten file. */
  type Plan = (Option<string>, Option<string>) -> Result<Option<string>>

  /** A plan never writes a file that is not there. */
  ghost predicate WritesOnlyFiles(plan: Plan) {
    forall m: Option<string> :: plan(m, None).Ok? ==> plan(m, None).value.None?
  }

  /** q is the file `file` of an item of the `content/` directory of a
      video that the walk visits: the video is a directory holding a
      `metadata.json`, its `content` is a directory, and the item is one of
      its entries. */
  predicate Slot(fs: Fs, tableP: Path, file: string, q: Path) {
    && |q| == |tableP| + 4 && q[..|tableP|] == tableP
    && q[|tableP| + 1] == Content && q[|tableP| + 3] == file
    && IsDir(fs, q[..|tableP| + 1]) && q[..|tableP| + 1] + [MetadataJson] in fs
    && IsDir(fs, q[..|tableP| + 2]) && q[..|tableP| + 3] in fs
  }

  /** The outcome of one item's step: the plan's verdict, or the OSError
      of writing its text. */
  function ItemResult(plan: Plan, fs: Fs, q: Path): Result<Option<string>>
    requires q != []
  {
    var t :- plan(TextAt(fs, Parent(q) + [MetadataJson]), TextAt(fs, q));
    if t.Some? && WriteText(fs, q, t.value).Err? then Err(WriteText(fs, q, t.value).error) else Ok(t)
  }

  /** Every item's step succeeds. */
  ghost predicate AllOk(plan: Plan, fs: Fs, tableP: Path, file: string) {
    forall q :: Slot(fs, tableP, file, q) ==> ItemResult(plan, fs, q).Ok?
  }

  /** The items of video v named in di have been found good. */
  ghost predicate ItemsOk(plan: Plan, fs: Fs, tableP: Path, file: string, v: string, di: set<string>) {
    forall q :: Slot(fs, tableP, file, q) && q[|tableP|] == v && q[|tableP| + 2] in di ==> ItemResult(plan, fs, q).Ok?
  }

  /** The items of the videos in dv have been found good. */
  ghost predicate VideosOk(plan: Plan, fs: Fs, tableP: Path, file: string, dv: set<string>) {
    forall q :: Slot(fs, tableP, file, q) && q[|tableP|] in dv ==> ItemResult(plan, fs, q).Ok?
  }

  /** The new text of q, when the walk writes one. */
  predicate Writes(plan: Plan, fs: Fs, tableP: Path, file: string, q: Path) {
    Slot(fs, tableP, file, q) && ItemResult(plan, fs, q).Ok? && ItemResult(plan, fs, q).value.Some?
  }

  /** The file system after the walk: every item whose step gives a text
      has `file` replaced by it, everything else is as it was. */
  function Rewritten(plan: Plan, fs: Fs, tableP: Path, file: string): Fs {
    map q | q in fs :: if Writes(plan, fs, tableP, file, q) then File(ItemResult(plan, fs, q).value.value) else fs[q]
  }

  /** What the walk leaves at an item whose step succeeds. */
  lemma {:induction false} RewrittenAt(plan: Plan, fs: Fs, tableP: Path, file: string, q: Path)
    requires q in fs && Slot(fs, tableP, file, q) && ItemResult(plan, fs, q).Ok?
    ensures ItemResult(plan, fs, q).value.None? ==> Rewritten(plan, fs, tableP, file)[q] == fs[q]
    ensures ItemResult(plan, fs, q).value.Some? ==>
      Rewritten(plan, fs, tableP, file)[q] == File(ItemResult(plan, fs, q).value.value)
  {
  }

  /** The walk has dealt with q's item: its video is one of dv, or it is
      the video cur and the item one of di. */
  predicate Done(tableP: Path, q: Path, dv: set<string>, cur: string, di: set<string>)
    requires |q| == |tableP| + 4
  {
    q[|tableP|] in dv || (q[|tableP|] == cur && q[|tableP| + 2] in di)
  }

  /** The file system part-way through the walk. */
  function Written(plan: Plan, fs: Fs, tableP: Path, file: string, dv: set<string>, cur: string, di: set<string>): Fs {
    map q | q in fs ::
      if Writes(plan, fs, tableP, file, q) && Done(tableP, q, dv, cur, di) then File(ItemResult(plan, fs, q).value.value) else fs[q]
  }

  /** Two file systems with the same entries, directories in the same
      places. */
  predicate SameShape(fs: Fs, fs': Fs) {
    fs.Keys == fs'.Keys && forall q :: q in fs ==> (fs[q] == Dir <==> fs'[q] == Dir)
  }

  /** The walk only replaces the text of files. */
  lemma {:induction false} WrittenShape(plan: Plan, fs: Fs, tableP: Path, file: string, dv: set<string>, cur: string, di: set<string>)
    requires WritesOnlyFiles(plan)
    ensures SameShape(fs, Written(plan, fs, tableP, file, dv, cur, di))
  {
    var w := Written(plan, fs, tableP, file, dv, cur, di);
    forall q | q in fs && Writes(plan, fs, tableP, file, q)
      ensures fs[q].File?
    {
      WritesFile(plan, fs, tableP, file, q);
    }
  }

  /** A text is only ever planned for a file that is there. */
  lemma {:induction false} WritesFile(plan: Plan, fs: Fs, tableP: Path, file: string, q: Path)
    requires WritesOnlyFiles(plan)
    requires Writes(plan, fs, tableP, file, q)
    ensures IsFile(fs, q)
  {
    var m := TextAt(fs, Parent(q) + [MetadataJson]);
    assert plan(m, TextAt(fs, q)).Ok?;
  }

  /** Entries of the same shape list the same names and pass the same
      checks. */
  lemma {:induction false} ShapeKeepsSlots(fs: Fs, fs': Fs, tableP: Path, file: string)
    requires SameShape(fs, fs')
    ensures forall q :: Slot(fs, tableP, file, q) <==> Slot(fs', tableP, file, q)
    ensures forall p :: IsDir(fs, p) <==> IsDir(fs', p)
    ensures forall p :: Children(fs, p) == Children(fs', p)
  {
    forall p
      ensures IsDir(fs, p) <==> IsDir(fs', p)
    {
    }
  }

  /** A slot is the file `file` of item n of video v. */
  lemma {:induction false} SlotParts(fs: Fs, tableP: Path, file: string, q: Path)
    requires Slot(fs, tableP, file, q)
    ensures q == tableP + [q[|tableP|], Content, q[|tableP| + 2], file]
    ensures q[..|tableP| + 1] == tableP + [q[|tableP|]]
    ensures q[..|tableP| + 1] + [MetadataJson] == tableP + [q[|tableP|], MetadataJson]
    ensures q[..|tableP| + 2] == tableP + [q[|tableP|], Content]
    ensures q[..|tableP| + 3] == tableP + [q[|tableP|], Content, q[|tableP| + 2]]
  {
    assert q == q[..|tableP|] + [q[|tableP|], q[|tableP| + 1], q[|tableP| + 2], q[|tableP| + 3]];
  }

  /** Every entry of a visited video's content directory is an item. */
  lemma {:induction false} ListedSlot(fs: Fs, tableP: Path, file: string, v: string, n: string)
    requires IsDir(fs, tableP + [v]) && tableP + [v, MetadataJson] in fs
    requires IsDir(fs, tableP + [v, Content]) && n in Children(fs, tableP + [v, Content])
    ensures Slot(fs, tableP, file, tableP + [v, Content, n, file])
  {
    var c := tableP + [v, Content];
    var q := tableP + [v, Content, n, file];
    var e :| e in fs && |e| == |c| + 1 && e[..|c|] == c && e[|c|] == n;
    assert e == c + [n];
    assert q[..|tableP| + 3] == c + [n];
    assert q[..|tableP| + 2] == c;
    assert q[..|tableP| + 1] == tableP + [v];
    assert q[..|tableP| + 1] + [MetadataJson] == tableP + [v, MetadataJson];
  }

  /** Two stages of the walk that have dealt with the same items agree. */
  lemma {:induction false} WrittenSame(plan: Plan, fs: Fs, tableP: Path, file: string,
                    dv: set<string>, cur: string, di: set<string>, dv': set<string>, cur': string, di': set<string>)
    requires forall q :: Writes(plan, fs, tableP, file, q) ==> (Done(tableP, q, dv, cur, di) <==> Done(tableP, q, dv', cur', di'))
    ensures Written(plan, fs, tableP, file, dv, cur, di) == Written(plan, fs, tableP, file, dv', cur', di')
  {
  }

  /** Nothing has been done yet. */
  lemma {:induction false} WrittenNone(plan: Plan, fs: Fs, tableP: Path, file: string)
    ensures Written(plan, fs, tableP, file, {}, "", {}) == fs
  {
  }

  /** Once every listed video is done, the walk has left `Rewritten`. */
  lemma {:induction false} WrittenAll(plan: Plan, fs: Fs, tableP: Path, file: string, dv: set<string>)
    requires Children(fs, tableP) <= dv
    ensures Written(plan, fs, tableP, file, dv, "", {}) == Rewritten(plan, fs, tableP, file)
  {
    forall q | Slot(fs, tableP, file, q)
      ensures q[|tableP|] in dv
    {
      SlotParts(fs, tableP, file, q);
      ChildListed(fs, q[..|tableP| + 1]);
    }
  }

  /** A video whose items are all done counts as done. */
  lemma {:induction false} VideoDone(plan: Plan, fs: Fs, tableP: Path, file: string, dv: set<string>, v: string, di: set<string>)
    requires Children(fs, tableP + [v, Content]) <= di
    ensures Written(plan, fs, tableP, file, dv, v, di) == Written(plan, fs, tableP, file, dv + {v}, "", {})
  {
    forall q | Writes(plan, fs, tableP, file, q)
      ensures Done(tableP, q, dv, v, di) <==> Done(tableP, q, dv + {v}, "", {})
    {
      if q[|tableP|] == v {
        SlotParts(fs, tableP, file, q);
        ChildListed(fs, q[..|tableP| + 3]);
      }
    }
    WrittenSame(plan, fs, tableP, file, dv, v, di, dv + {v}, "", {});
  }

  /** A video the walk skips has no items to rewrite. */
  lemma {:induction false} VideoSkipped(plan: Plan, fs: Fs, tableP: Path, file: string, dv: set<string>, v: string)
    requires !(IsDir(fs, tableP + [v]) && tableP + [v, MetadataJson] in fs && IsDir(fs, tableP + [v, Content]))
    ensures forall q :: Slot(fs, tableP, file, q) ==> q[|tableP|] != v
    ensures Written(plan, fs, tableP, file, dv, "", {}) == Written(plan, fs, tableP, file, dv + {v}, "", {})
  {
    forall q | Slot(fs, tableP, file, q)
      ensures q[|tableP|] != v
    {
      SlotParts(fs, tableP, file, q);
    }
    WrittenSame(plan, fs, tableP, file, dv, "", {}, dv + {v}, "", {});
  }

  /** Starting a video changes nothing yet. */
  lemma {:induction false} VideoStart(plan: Plan, fs: Fs, tableP: Path, file: string, dv: set<string>, v: string)
    ensures Written(plan, fs, tableP, file, dv, "", {}) == Written(plan, fs, tableP, file, dv, v, {})
  {
    WrittenSame(plan, fs, tableP, file, dv, "", {}, dv, v, {});
  }

  /** An item that is not done yet reads the files of the start. */
  lemma {:induction false} ItemUntouched(plan: Plan, fs: Fs, tableP: Path, file: string, dv: set<string>, v: string, di: set<string>, n: string)
    requires WritesOnlyFiles(plan)
    requires v !in dv && n !in di
    ensures var q := tableP + [v, Content, n, file];
      ItemResult(plan, Written(plan, fs, tableP, file, dv, v, di), q) == ItemResult(plan, fs, q)
  {
    var w := Written(plan, fs, tableP, file, dv, v, di);
    var q := tableP + [v, Content, n, file];
    var m := Parent(q) + [MetadataJson];
    WrittenShape(plan, fs, tableP, file, dv, v, di);
    assert Parent(q) == tableP + [v, Content, n];
    assert m == tableP + [v, Content, n, MetadataJson];
    assert q[|tableP|] == v && q[|tableP| + 2] == n;
    assert m[|tableP|] == v && m[|tableP| + 2] == n;
    assert TextAt(w, q) == TextAt(fs, q);
    assert TextAt(w, m) == TextAt(fs, m);
    assert IsDir(w, Parent(q)) == IsDir(fs, Parent(q));
  }

  /** Applying an item's step moves it to the done items. */
  lemma {:induction false} ItemStep(plan: Plan, fs: Fs, tableP: Path, file: string, dv: set<string>, v: string, di: set<string>, n: string)
    requires WritesOnlyFiles(plan)
    requires v !in dv && n !in di
    requires Slot(fs, tableP, file, tableP + [v, Content, n, file])
    requires ItemResult(plan, fs, tableP + [v, Content, n, file]).Ok?
    ensures var q := tableP + [v, Content, n, file];
      var w := Written(plan, fs, tableP, file, dv, v, di);
      var t := ItemResult(plan, fs, q).value;
      (if t.Some? then w[q := File(t.value)] else w) == Written(plan, fs, tableP, file, dv, v, di + {n})
  {
    var q := tableP + [v, Content, n, file];
    var w := Written(plan, fs, tableP, file, dv, v, di);
    var w' := Written(plan, fs, tableP, file, dv, v, di + {n});
    var t := ItemResult(plan, fs, q).value;
    assert q[|tableP|] == v && q[|tableP| + 2] == n;
    if t.Some? {
      WritesFile(plan, fs, tableP, file, q);
    }
    forall p | p in fs && p != q && Writes(plan, fs, tableP, file, p)
      ensures Done(tableP, p, dv, v, di) == Done(tableP, p, dv, v, di + {n})
    {
      SlotParts(fs, tableP, file, p);
    }
    forall p | p in fs
      ensures (if t.Some? then w[q := File(t.value)] else w)[p] == w'[p]
    {
    }
    assert (if t.Some? then w[q := File(t.value)] else w).Keys == w'.Keys;
  }

  /** The items found good so far, and one more. */
  lemma {:induction false} ItemOk(plan: Plan, fs: Fs, tableP: Path, file: string, v: string, di: set<string>, n: string)
    requires ItemsOk(plan, fs, tableP, file, v, di)
    requires ItemResult(plan, fs, tableP + [v, Content, n, file]).Ok?
    ensures ItemsOk(plan, fs, tableP, file, v, di + {n})
  {
    forall q | Slot(fs, tableP, file, q) && q[|tableP|] == v && q[|tableP| + 2] == n
      ensures ItemResult(plan, fs, q).Ok?
    {
      SlotParts(fs, tableP, file, q);
    }
  }

  /** A video whose items are all good joins the good videos. */
  lemma {:induction false} VideosOkStep(plan: Plan, fs: Fs, tableP: Path, file: string, dv: set<string>, v: string)
    requires VideosOk(plan, fs, tableP, file, dv)
    requires ItemsOk(plan, fs, tableP, file, v, Children(fs, tableP + [v, Content]))
    ensures VideosOk(plan, fs, tableP, file, dv + {v})
  {
    forall q | Slot(fs, tableP, file, q) && q[|tableP|] == v
      ensures ItemResult(plan, fs, q).Ok?
    {
      SlotParts(fs, tableP, file, q);
      ChildListed(fs, q[..|tableP| + 3]);
    }
  }

  /** An item that fails stops the walk with its error. */
  lemma {:induction false} ItemFails(plan: Plan, fs: Fs, tableP: Path, file: string, v: string, n: string)
    requires Slot(fs, tableP, file, tableP + [v, Content, n, file])
    requires ItemResult(plan, fs, tableP + [v, Content, n, file]).Err?
    ensures !AllOk(plan, fs, tableP, file)
  {
  }

  /** One item: the plan is asked and its text, if any, written. */
  method WalkItem(fs: Fs, plan: Plan, q: Path) returns (fs': Fs, err: Option<Error>)
    requires q != []
    ensures ItemResult(plan, fs, q).Err? ==> fs' == fs && err == Some(ItemResult(plan, fs, q).error)
    ensures ItemResult(plan, fs, q).Ok? ==> err.None?
    ensures ItemResult(plan, fs, q).Ok? ==>
      fs' == (if ItemResult(plan, fs, q).value.Some? then fs[q := File(ItemResult(plan, fs, q).value.value)] else fs)
  {
    var metadata := TextAt(fs, Parent(q) + [MetadataJson]);
    var current := TextAt(fs, q);
    var t := plan(metadata, current);
    if t.Err? {
      return fs, Some(t.error);
    }
    if t.value.None? {
      return fs, None;
    }
    var w := WriteText(fs, q, t.value.value);
    if w.Err? {
      return fs, Some(w.error);
    }
    return w.value, None;
  }

  /** One entry of a video's `content/` directory. */
  method VisitItem(fs: Fs, plan: Plan, tableP: Path, file: string, v: string, n: string,
                   ghost fs0: Fs, ghost dv: set<string>, ghost di: set<string>)
    returns (fs': Fs, err: Option<Error>)
    requires WritesOnlyFiles(plan)
    requires v !in dv && n !in di
    requires IsDir(fs0, tableP + [v]) && tableP + [v, MetadataJson] in fs0
    requires IsDir(fs0, tableP + [v, Content]) && n in Children(fs0, tableP + [v, Content])
    requires fs == Written(plan, fs0, tableP, file, dv, v, di)
    requires ItemsOk(plan, fs0, tableP, file, v, di)
    ensures err.None? ==> fs' == Written(plan, fs0, tableP, file, dv, v, di + {n})
    ensures err.None? ==> ItemsOk(plan, fs0, tableP, file, v, di + {n})
    ensures err.Some? ==> !AllOk(plan, fs0, tableP, file)
  {
    var q := tableP + [v, Content, n, file];
    ListedSlot(fs0, tableP, file, v, n);
    ItemUntouched(plan, fs0, tableP, file, dv, v, di, n);
    fs', err := WalkItem(fs, plan, q);
    if err.Some? {
      ItemFails(plan, fs0, tableP, file, v, n);
      return;
    }
    ItemStep(plan, fs0, tableP, file, dv, v, di, n);
    ItemOk(plan, fs0, tableP, file, v, di, n);
  }

  /** The names met so far, as a set, grow by the next one listed. */
  lemma {:induction false} ListedStep(names: seq<string>, i: nat, seen: set<string>)
    requires i < |names| && forall n :: n in seen <==> n in names[..i]
    ensures forall n :: n in seen + {names[i]} <==> n in names[..i + 1]
  {
    assert names[..i + 1] == names[..i] + [names[i]];
  }

  /** One video: every entry of its `content/` directory, when that is a
      directory, is an item. */
  method WalkVideo(fs: Fs, plan: Plan, tableP: Path, file: string, v: string, ghost fs0: Fs, ghost dv: set<string>)
    returns (fs': Fs, err: Option<Error>)
    requires WritesOnlyFiles(plan)
    requires v !in dv
    requires IsDir(fs0, tableP + [v]) && tableP + [v, MetadataJson] in fs0
    requires fs == Written(plan, fs0, tableP, file, dv, "", {})
    ensures err.None? ==> fs' == Written(plan, fs0, tableP, file, dv + {v}, "", {})
    ensures err.None? ==> ItemsOk(plan, fs0, tableP, file, v, Children(fs0, tableP + [v, Content]))
    ensures err.Some? ==> !AllOk(plan, fs0, tableP, file)
  {
    var contentP := tableP + [v, Content];
    WrittenShape(plan, fs0, tableP, file, dv, "", {});
    ShapeKeepsSlots(fs0, fs, tableP, file);
    if !IsDir(fs, contentP) {
      VideoSkipped(plan, fs0, tableP, file, dv, v);
      return fs, None;
    }
    VideoStart(plan, fs0, tableP, file, dv, v);
    var names := Listing(Children(fs, contentP));
    ghost var di: set<string> := {};
    var i := 0;
    fs' := fs;
    while i < |names|
      invariant 0 <= i <= |names|
      invariant forall n :: n in di <==> n in names[..i]
      invariant fs' == Written(plan, fs0, tableP, file, dv, v, di)
      invariant ItemsOk(plan, fs0, tableP, file, v, di)
    {
      var n := names[i];
      assert n !in di;
      var e;
      fs', e := VisitItem(fs', plan, tableP, file, v, n, fs0, dv, di);
      if e.Some? {
        return fs', e;
      }
      ListedStep(names, i, di);
      di := di + {n};
      i := i + 1;
    }
    assert Children(fs0, contentP) <= di;
    VideoDone(plan, fs0, tableP, file, dv, v, di);
    err := None;
  }

  /** One entry of the video table: a directory holding a `metadata.json`
      is walked, anything else is skipped. */
  method VisitVideo(fs: Fs, plan: Plan, tableP: Path, file: string, v: string, ghost fs0: Fs, ghost dv: set<string>)
    returns (fs': Fs, err: Option<Error>)
    requires WritesOnlyFiles(plan)
    requires v !in dv
    requires fs == Written(plan, fs0, tableP, file, dv, "", {})
    requires VideosOk(plan, fs0, tableP, file, dv)
    ensures err.None? ==> fs' == Written(plan, fs0, tableP, file, dv + {v}, "", {})
    ensures err.None? ==> VideosOk(plan, fs0, tableP, file, dv + {v})
    ensures err.Some? ==> !AllOk(plan, fs0, tableP, file)
  {
    var videoP := tableP + [v];
    WrittenShape(plan, fs0, tableP, file, dv, "", {});
    ShapeKeepsSlots(fs0, fs, tableP, file);
    assert videoP + [MetadataJson] == tableP + [v, MetadataJson];
    if IsDir(fs, videoP) && videoP + [MetadataJson] in fs {
      fs', err := WalkVideo(fs, plan, tableP, file, v, fs0, dv);
      if err.None? {
        VideosOkStep(plan, fs0, tableP, file, dv, v);
      }
    } else {
      VideoSkipped(plan, fs0, tableP, file, dv, v);
      fs', err := fs, None;
    }
  }

  /** The walk over the video table `tableP`, which is a directory. */
  method Walk(fs: Fs, plan: Plan, tableP: Path, file: string) returns (fs': Fs, err: Option<Error>)
    requires WritesOnlyFiles(plan)
    requires IsDir(fs, tableP)
    ensures err.None? <==> AllOk(plan, fs, tableP, file)
    ensures err.None? ==> fs' == Rewritten(plan, fs, tableP, file)
  {
    var names := Listing(Children(fs, tableP));
    ghost var dv: set<string> := {};
    WrittenNone(plan, fs, tableP, file);
    var i := 0;
    fs' := fs;
    while i < |names|
      invariant 0 <= i <= |names|
      invariant forall v :: v in dv <==> v in names[..i]
      invariant fs' == Written(plan, fs, tableP, file, dv, "", {})
      invariant VideosOk(plan, fs, tableP, file, dv)
    {
      var v := names[i];
      assert v !in dv;
      var e;
      fs', e := VisitVideo(fs', plan, tableP, file, v, fs, dv);
      if e.Some? {
        return fs', e;
      }
      ListedStep(names, i, dv);
      dv := dv + {v};
      i := i + 1;
    }
    assert Children(fs, tableP) <= dv;
    WrittenAll(plan, fs, tableP, file, dv);
    forall q | Slot(fs, tableP, file, q)
      ensures ItemResult(plan, fs, q).Ok?
    {
      SlotParts(fs, tableP, file, q);
      ChildListed(fs, q[..|tableP| + 1]);
    }
    err := None;
  }
}
