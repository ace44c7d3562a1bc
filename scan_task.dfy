/**
 * The image scan task: builds the album folders from the grouped rows of the
 * media library query, prepends the synthetic "all images" folder, and marks
 * the images whose paths the caller had already selected.
 *
 * The query itself is not modelled: its result is given as the rows already
 * partitioned into groups by bucket id, in the order the grouping emits them,
 * together with whether the query completed or threw a `PSException`, and
 * after how many groups it threw it.
 */
module Task {
  import opened Sorting
  import opened Entity

  datatype Option<T> = None | Some(value: T)

  /** One row of the media library: an image and the bucket (directory) holding it. */
  datatype ImageRow = ImageRow(id: int, path: string, name: string, addTime: int,
                               bucketId: int, bucketName: string)

  /** The rows sharing one bucket id, in the order the grouping emits them. */
  datatype Group = Group(bucketId: int, rows: seq<ImageRow>)

  /**
   * How the query ended: it completed, or it threw a `PSException` after the folders of its
   * first `groupsProcessed` groups had been built.
   */
  datatype QueryOutcome = Completed | Failed(groupsProcessed: nat)

  /** The number of groups whose folder is built before the query completes or throws a `PSException`. */
  function ProcessedGroups(groups: seq<Group>, outcome: QueryOutcome): (n: nat)
    ensures n <= |groups|
    ensures outcome.Completed? ==> n == |groups|
  {
    match outcome
    case Completed => |groups|
    case Failed(k) => if k < |groups| then k else |groups|
  }

  /** `image` was created from `row`. */
  predicate Describes(image: AlbumImage, row: ImageRow) {
    DataOf(image) == ImageData(row.id, row.path, row.name, row.addTime)
  }

  /** `images` were created one per row of `rows`, in order. */
  predicate Creates(images: seq<AlbumImage>, rows: seq<ImageRow>) {
    |images| == |rows| && forall j :: 0 <= j < |rows| ==> Describes(images[j], rows[j])
  }

  /** Making one more image for one more row keeps the images made row by row. */
  lemma CreatesSnoc(images: seq<AlbumImage>, rows: seq<ImageRow>, image: AlbumImage, row: ImageRow)
    requires Creates(images, rows) && Describes(image, row)
    ensures Creates(images + [image], rows + [row])
  {
    assert forall j :: 0 <= j < |rows| ==> (images + [image])[j] == images[j] && (rows + [row])[j] == rows[j];
  }

  /** A bucket folder is named after the bucket of the last row added to it. */
  function BucketName(group: Group): string {
    if group.rows == [] then "" else group.rows[|group.rows| - 1].bucketName
  }

  /** The images of several groups, group after group. */
  function Flatten<T>(groups: seq<seq<T>>): seq<T> {
    if groups == [] then []
    else Flatten(groups[..|groups| - 1]) + groups[|groups| - 1]
  }

  /** No object occurs twice in `s`. */
  predicate Distinct<T(==)>(s: seq<T>) {
    forall i, j :: 0 <= i < j < |s| ==> s[i] != s[j]
  }

  /** The total number of images held by `folders`. */
  function ImageCount(folders: seq<AlbumFolder>): nat
    reads folders
  {
    if folders == [] then 0
    else ImageCount(folders[..|folders| - 1]) + |folders[|folders| - 1].images|
  }

  /**
   * What a scan of `groups` ending in `outcome` returns, given the images
   * `created[i]` made for the rows of the i-th processed group.
   * The first folder is the checked "all images" folder holding every created
   * image, sorted; if the query completed it is followed by one folder per
   * group, in group order, holding that group's images, sorted.
   */
  ghost predicate ScanResult(folders: seq<AlbumFolder>, created: seq<seq<AlbumImage>>,
                             groups: seq<Group>, outcome: QueryOutcome,
                             allLabel: string, le: (ImageData, ImageData) -> bool)
    reads folders
  {
    && CreatedFor(created, groups, ProcessedGroups(groups, outcome))
    && |folders| == (if outcome.Completed? then |groups| + 1 else 1)
    && AllImagesFolder(folders[0], created, allLabel, le)
    && forall i :: 1 <= i < |folders| ==> BucketFolder(folders[i], created[i - 1], groups[i - 1], le)
  }

  /** `created[i]` are the images made for the rows of `groups[i]`, for the first `n` groups; no image is made twice. */
  predicate CreatedFor(created: seq<seq<AlbumImage>>, groups: seq<Group>, n: nat)
    requires n <= |groups|
  {
    && |created| == n
    && (forall i :: 0 <= i < n ==> Creates(created[i], groups[i].rows))
    && Distinct(Flatten(created))
  }

  /** `folder` is the checked "all images" folder: it holds every image of `created`, sorted. */
  ghost predicate AllImagesFolder(folder: AlbumFolder, created: seq<seq<AlbumImage>>,
                                  allLabel: string, le: (ImageData, ImageData) -> bool)
    reads folder
  {
    && folder.id == 0 && folder.name == allLabel && folder.checked
    && Sorted(folder.images, DataOf, le)
    && multiset(folder.images) == multiset(Flatten(created))
  }

  /**
   * `folder` is the folder of `group`, whose rows `images` were created for:
   * it carries the group's bucket id, is named after its last row's bucket,
   * is unchecked, and holds exactly those images, sorted.
   */
  ghost predicate BucketFolder(folder: AlbumFolder, images: seq<AlbumImage>, group: Group,
                               le: (ImageData, ImageData) -> bool)
    reads folder
  {
    && Creates(images, group.rows)
    && folder.id == group.bucketId
    && folder.name == BucketName(group)
    && !folder.checked
    && Sorted(folder.images, DataOf, le)
    && multiset(folder.images) == multiset(images)
  }

  /** The folders of a scan, put together from the "all images" folder and the bucket folders. */
  lemma AssembleScan(folders: seq<AlbumFolder>, all: AlbumFolder, built: seq<AlbumFolder>,
                     created: seq<seq<AlbumImage>>, groups: seq<Group>, outcome: QueryOutcome,
                     allLabel: string, le: (ImageData, ImageData) -> bool)
    requires |built| == ProcessedGroups(groups, outcome)
    requires CreatedFor(created, groups, ProcessedGroups(groups, outcome))
    requires folders == [all] + (if outcome.Completed? then built else [])
    requires AllImagesFolder(all, created, allLabel, le)
    requires forall k :: 0 <= k < |built| ==> BucketFolder(built[k], created[k], groups[k], le)
    ensures ScanResult(folders, created, groups, outcome, allLabel, le)
  {
    if outcome.Completed? {
      assert forall i :: 1 <= i < |folders| ==> folders[i] == built[i - 1];
    } else {
      assert |folders| == 1;
    }
  }

  /** Recording the images made for the next group extends what was created, group after group. */
  lemma CreatedForSnoc(created: seq<seq<AlbumImage>>, images: seq<AlbumImage>, groups: seq<Group>, n: nat)
    requires n < |groups| && CreatedFor(created, groups, n)
    requires Creates(images, groups[n].rows) && Distinct(Flatten(created) + images)
    ensures CreatedFor(created + [images], groups, n + 1)
    ensures Flatten(created + [images]) == Flatten(created) + images
  {
    assert (created + [images])[..n] == created;
  }

  /** Two sequences without repeats and without common element make one without repeats. */
  lemma DistinctAppend<T>(a: seq<T>, b: seq<T>)
    requires Distinct(a) && Distinct(b)
    requires forall x :: x in b ==> x !in a
    ensures Distinct(a + b)
  {
    forall i, j | 0 <= i < j < |a + b|
      ensures (a + b)[i] != (a + b)[j]
    {
      if i < |a| && |a| <= j {
        assert (a + b)[j] in b;
      }
    }
  }

  // ---------------------------------------------------------------------
  // Reconciliation of the caller's selected paths
  // ---------------------------------------------------------------------

  /** The images of `images` whose path is `path`, in index order. */
  function MatchesOf(path: string, images: seq<AlbumImage>): seq<AlbumImage> {
    if images == [] then []
    else
      var last := images[|images| - 1];
      MatchesOf(path, images[..|images| - 1]) + (if last.path == path then [last] else [])
  }

  /** For each path of `paths` in turn, the images of `images` with that path. */
  function Matches(paths: seq<string>, images: seq<AlbumImage>): seq<AlbumImage> {
    if paths == [] then []
    else Matches(paths[..|paths| - 1], images) + MatchesOf(paths[|paths| - 1], images)
  }

  /**
   * The number of pairs (path of `paths`, image of `images`) whose path and
   * image path are equal, counted image by image.
   */
  function EqualPairs(paths: seq<string>, images: seq<AlbumImage>): nat {
    if images == [] then 0
    else EqualPairs(paths, images[..|images| - 1]) + multiset(paths)[images[|images| - 1].path]
  }

  /** Matches of one path come in index order: those in a prefix before those after it. */
  lemma {:induction false} MatchesOfAppend(path: string, a: seq<AlbumImage>, b: seq<AlbumImage>)
    ensures MatchesOf(path, a + b) == MatchesOf(path, a) + MatchesOf(path, b)
  {
    if b == [] {
      assert a + b == a;
    } else {
      var b', last := b[..|b| - 1], b[|b| - 1];
      assert (a + b)[..|a + b| - 1] == a + b' && (a + b)[|a + b| - 1] == last;
      MatchesOfAppend(path, a, b');
      assert MatchesOf(path, b) == MatchesOf(path, b') + (if last.path == path then [last] else []);
    }
  }

  /** Matches come path by path: those of earlier paths before those of later ones. */
  lemma {:induction false} MatchesAppend(a: seq<string>, b: seq<string>, images: seq<AlbumImage>)
    ensures Matches(a + b, images) == Matches(a, images) + Matches(b, images)
  {
    if b == [] {
      assert a + b == a;
    } else {
      var b', last := b[..|b| - 1], b[|b| - 1];
      assert (a + b)[..|a + b| - 1] == a + b' && (a + b)[|a + b| - 1] == last;
      MatchesAppend(a, b', images);
      assert Matches(b, images) == Matches(b', images) + MatchesOf(last, images);
    }
  }

  /** The matches of the first `k + 1` paths are those of the first `k`, then those of the next path. */
  lemma MatchesPrefixStep(paths: seq<string>, k: nat, images: seq<AlbumImage>)
    requires k < |paths|
    ensures Matches(paths[..k + 1], images) == Matches(paths[..k], images) + MatchesOf(paths[k], images)
    ensures forall p :: p in paths[..k + 1] <==> p in paths[..k] || p == paths[k]
  {
    assert paths[..k + 1] == paths[..k] + [paths[k]];
  }

  /** An image matches one path as often as it occurs in `images`, if it has that path. */
  lemma {:induction false} MatchesOfCount(path: string, images: seq<AlbumImage>, x: AlbumImage)
    ensures multiset(MatchesOf(path, images))[x] == if x.path == path then multiset(images)[x] else 0
  {
    if images != [] {
      var init := images[..|images| - 1];
      assert images == init + [images[|images| - 1]];
      MatchesOfCount(path, init, x);
    }
  }

  /**
   * An image is matched once per occurrence of its path among `paths` and per
   * occurrence of itself among `images`: duplicate paths give duplicate
   * matches, and every image with a selected path is matched.
   */
  lemma {:induction false} MatchesCount(paths: seq<string>, images: seq<AlbumImage>, x: AlbumImage)
    ensures multiset(Matches(paths, images))[x] == multiset(paths)[x.path] * multiset(images)[x]
  {
    if paths != [] {
      var init := paths[..|paths| - 1];
      MatchesCount(init, images, x);
      MatchesCountStep(paths, images, x);
      DistributeCount(multiset(Matches(paths, images))[x], multiset(Matches(init, images))[x],
                      multiset(init)[x.path], multiset(paths)[x.path], multiset(images)[x],
                      x.path == paths[|paths| - 1]);
    }
  }

  /** Adding a last path adds the image's matches of that path, and one occurrence of it if it is the image's path. */
  lemma MatchesCountStep(paths: seq<string>, images: seq<AlbumImage>, x: AlbumImage)
    requires paths != []
    ensures var init, p := paths[..|paths| - 1], paths[|paths| - 1];
            && multiset(Matches(paths, images))[x]
               == multiset(Matches(init, images))[x] + multiset(MatchesOf(p, images))[x]
            && multiset(MatchesOf(p, images))[x] == (if x.path == p then multiset(images)[x] else 0)
            && multiset(paths)[x.path] == multiset(init)[x.path] + (if x.path == p then 1 else 0)
  {
    var init, p := paths[..|paths| - 1], paths[|paths| - 1];
    MatchesOfCount(p, images, x);
    assert paths == init + [p];
  }

  /** The arithmetic step of MatchesCount: one more occurrence of the path adds one more `c`. */
  lemma DistributeCount(total: nat, before: nat, a: nat, count: nat, c: nat, hit: bool)
    requires before == a * c
    requires total == before + (if hit then c else 0)
    requires count == a + (if hit then 1 else 0)
    ensures total == count * c
  {
    if hit {
      assert (a + 1) * c == a * c + c;
    }
  }

  /** An image is matched exactly when it is one of `images` and its path is one of `paths`. */
  lemma MatchesMembers(paths: seq<string>, images: seq<AlbumImage>, x: AlbumImage)
    ensures x in Matches(paths, images) <==> x in images && x.path in paths
  {
    MatchesCount(paths, images, x);
    var a, c := multiset(paths)[x.path], multiset(images)[x];
    assert a * c > 0 <==> a > 0 && c > 0;
  }

  /** Adding a path to `paths` adds its matches to the count of equal pairs. */
  lemma {:induction false} EqualPairsSnoc(paths: seq<string>, p: string, images: seq<AlbumImage>)
    ensures EqualPairs(paths + [p], images) == EqualPairs(paths, images) + |MatchesOf(p, images)|
  {
    if images != [] {
      EqualPairsSnoc(paths, p, images[..|images| - 1]);
    }
  }

  /** As many images are matched as there are pairs of equal path and image path. */
  lemma {:induction false} MatchesLength(paths: seq<string>, images: seq<AlbumImage>)
    ensures |Matches(paths, images)| == EqualPairs(paths, images)
  {
    if paths == [] {
      EqualPairsEmpty(images);
    } else {
      var init, p := paths[..|paths| - 1], paths[|paths| - 1];
      assert paths == init + [p];
      MatchesLength(init, images);
      EqualPairsSnoc(init, p, images);
    }
  }

  /** No path, no pair. */
  lemma {:induction false} EqualPairsEmpty(images: seq<AlbumImage>)
    ensures EqualPairs([], images) == 0
  {
    if images != [] {
      EqualPairsEmpty(images[..|images| - 1]);
    }
  }

  // ---------------------------------------------------------------------
  // Facts about the folders a scan returns
  // ---------------------------------------------------------------------

  /** Each group's images are among the flattened images. */
  lemma {:induction false} FlattenContains<T>(groups: seq<seq<T>>, i: nat)
    requires i < |groups|
    ensures multiset(groups[i]) <= multiset(Flatten(groups))
  {
    var init := groups[..|groups| - 1];
    if i < |groups| - 1 {
      FlattenContains(init, i);
    }
  }

  /** The flattened images are as many as the folders holding each group hold. */
  lemma {:induction false} FlattenCount(folders: seq<AlbumFolder>, groups: seq<seq<AlbumImage>>)
    requires |folders| == |groups|
    requires forall i :: 0 <= i < |folders| ==> |folders[i].images| == |groups[i]|
    ensures |Flatten(groups)| == ImageCount(folders)
  {
    if folders != [] {
      FlattenCount(folders[..|folders| - 1], groups[..|groups| - 1]);
    }
  }

  /** Every image of a bucket folder is also in the "all images" folder. */
  lemma AggregateHoldsBucketImages(folders: seq<AlbumFolder>, created: seq<seq<AlbumImage>>,
                                   groups: seq<Group>, outcome: QueryOutcome,
                                   allLabel: string, le: (ImageData, ImageData) -> bool)
    requires ScanResult(folders, created, groups, outcome, allLabel, le)
    ensures forall i :: 1 <= i < |folders| ==> multiset(folders[i].images) <= multiset(folders[0].images)
  {
    forall i | 1 <= i < |folders|
      ensures multiset(folders[i].images) <= multiset(folders[0].images)
    {
      FlattenContains(created, i - 1);
    }
  }

  /**
   * Bucket folders share their image objects with the "all images" folder:
   * an image's checked flag, as seen from its bucket folder, is what the
   * "all images" folder shows for it.
   */
  lemma BucketImagesShareFlags(folders: seq<AlbumFolder>, created: seq<seq<AlbumImage>>,
                               groups: seq<Group>, outcome: QueryOutcome,
                               allLabel: string, le: (ImageData, ImageData) -> bool, paths: seq<string>)
    requires ScanResult(folders, created, groups, outcome, allLabel, le)
    requires forall x :: x in folders[0].images ==> x.checked == (x.path in paths)
    ensures forall i, x :: 0 <= i < |folders| && x in folders[i].images ==> x.checked == (x.path in paths)
  {
    AggregateHoldsBucketImages(folders, created, groups, outcome, allLabel, le);
    forall i, x | 0 <= i < |folders| && x in folders[i].images
      ensures x in folders[0].images
    {
      assert x in multiset(folders[i].images);
    }
  }

  /** After a completed scan, the "all images" folder holds as many images as all bucket folders together. */
  lemma AggregateCount(folders: seq<AlbumFolder>, created: seq<seq<AlbumImage>>,
                       groups: seq<Group>, outcome: QueryOutcome,
                       allLabel: string, le: (ImageData, ImageData) -> bool)
    requires ScanResult(folders, created, groups, outcome, allLabel, le)
    requires outcome.Completed?
    ensures |folders[0].images| == ImageCount(folders[1..])
  {
    assert |multiset(folders[0].images)| == |multiset(Flatten(created))|;
    forall i | 0 <= i < |folders[1..]|
      ensures |folders[1..][i].images| == |created[i]|
    {
      assert |multiset(folders[i + 1].images)| == |multiset(created[i])|;
    }
    FlattenCount(folders[1..], created);
  }

  /** The number of rows of `groups`. */
  function RowCount(groups: seq<Group>): nat {
    if groups == [] then 0
    else RowCount(groups[..|groups| - 1]) + |groups[|groups| - 1].rows|
  }

  /** Images made one per row, group by group, are as many as the rows. */
  lemma {:induction false} FlattenRowCount(created: seq<seq<AlbumImage>>, groups: seq<Group>)
    requires |created| == |groups|
    requires forall i :: 0 <= i < |groups| ==> |created[i]| == |groups[i].rows|
    ensures |Flatten(created)| == RowCount(groups)
  {
    if created != [] {
      FlattenRowCount(created[..|created| - 1], groups[..|groups| - 1]);
    }
  }

  /**
   * Whether or not the query completed, the "all images" folder holds one
   * image per row of the groups processed before it ended.
   */
  lemma AggregateRowCount(folders: seq<AlbumFolder>, created: seq<seq<AlbumImage>>,
                          groups: seq<Group>, outcome: QueryOutcome,
                          allLabel: string, le: (ImageData, ImageData) -> bool)
    requires ScanResult(folders, created, groups, outcome, allLabel, le)
    ensures |folders[0].images| == RowCount(groups[..ProcessedGroups(groups, outcome)])
  {
    var processed := groups[..ProcessedGroups(groups, outcome)];
    assert |multiset(folders[0].images)| == |multiset(Flatten(created))|;
    forall i | 0 <= i < |processed|
      ensures |created[i]| == |processed[i].rows|
    {
      assert processed[i] == groups[i];
    }
    FlattenRowCount(created, processed);
  }

  /**
   * After a `PSException` the result is the "all images" folder alone, yet
   * that folder keeps the images of the groups processed before the throw:
   * unlike after a completed scan, its count is not the bucket folders'
   * total, which is zero.
   */
  lemma FailedScanKeepsImages(folders: seq<AlbumFolder>, created: seq<seq<AlbumImage>>,
                              groups: seq<Group>, outcome: QueryOutcome,
                              allLabel: string, le: (ImageData, ImageData) -> bool)
    requires ScanResult(folders, created, groups, outcome, allLabel, le)
    requires outcome.Failed?
    ensures |folders| == 1 && ImageCount(folders[1..]) == 0
    ensures |folders[0].images| == RowCount(groups[..ProcessedGroups(groups, outcome)])
  {
    AggregateRowCount(folders, created, groups, outcome, allLabel, le);
    assert folders[1..] == [];
  }

  /** A throw after a first group of one row leaves one folder holding one image. */
  lemma FailedScanExample(folders: seq<AlbumFolder>, created: seq<seq<AlbumImage>>,
                          bucketId: int, row: ImageRow, rest: seq<Group>,
                          allLabel: string, le: (ImageData, ImageData) -> bool)
    requires ScanResult(folders, created, [Group(bucketId, [row])] + rest, Failed(1), allLabel, le)
    ensures |folders| == 1 && |folders[0].images| == 1
  {
    var groups := [Group(bucketId, [row])] + rest;
    FailedScanKeepsImages(folders, created, groups, Failed(1), allLabel, le);
    assert groups[..1] == [Group(bucketId, [row])];
  }

  /** The paths the caller had selected, or none when it passed no list. */
  function CheckedPaths(checkedList: Option<seq<string>>): seq<string> {
    match checkedList
    case None => []
    case Some(paths) => paths
  }

  /** A growable list of images owned by the caller. */
  class ImageList {
    var items: seq<AlbumImage>

    constructor ()
      ensures items == []
    {
      items := [];
    }

    method Add(image: AlbumImage)
      modifies this
      ensures items == old(items) + [image]
    {
      items := items + [image];
    }
  }

  class ScanTask {
    /** The caller's list that receives the images found selected. */
    const checkedImages: ImageList
    /** The localized name of the "all images" folder. */
    const allImagesLabel: string

    constructor (checkedImages: ImageList, allImagesLabel: string)
      ensures this.checkedImages == checkedImages && this.allImagesLabel == allImagesLabel
    {
      this.checkedImages := checkedImages;
      this.allImagesLabel := allImagesLabel;
    }

    /**
     * Scans the library and marks the selected images: every image of the
     * "all images" folder whose path is one of the caller's paths is checked
     * and appended to the caller's list, once per equal path.
     */
    method DoInBackground(checkedList: Option<seq<string>>, groups: seq<Group>,
                          outcome: QueryOutcome, le: (ImageData, ImageData) -> bool)
      returns (folders: seq<AlbumFolder>, ghost created: seq<seq<AlbumImage>>)
      requires TotalPreorder(le)
      modifies checkedImages
      ensures ScanResult(folders, created, groups, outcome, allImagesLabel, le)
      ensures forall f :: f in folders ==> fresh(f)
      ensures checkedImages.items
              == old(checkedImages.items) + Matches(CheckedPaths(checkedList), folders[0].images)
      ensures forall x :: x in folders[0].images ==>
                fresh(x) && x.checked == (x.path in CheckedPaths(checkedList))
    {
      folders, created := GetPhotoAlbum(groups, outcome, le);
      label scanned:
      var images := folders[0].images;
      if checkedList.Some? && |checkedList.value| > 0 {
        MarkChecked(checkedList.value, images);
      }
      assert unchanged@scanned(folders);
      assert checkedImages.items
              == old(checkedImages.items) + Matches(CheckedPaths(checkedList), folders[0].images);
    }

    /**
     * For each path in turn and each image in turn, checks the image and
     * appends it to the caller's list when its path equals the path.
     */
    method MarkChecked(paths: seq<string>, images: seq<AlbumImage>)
      modifies checkedImages, set x | x in images
      ensures checkedImages.items == old(checkedImages.items) + Matches(paths, images)
      ensures forall x :: x in images ==> x.checked == (old(x.checked) || x.path in paths)
    {
      var k := 0;
      while k < |paths|
        invariant 0 <= k <= |paths|
        invariant checkedImages.items == old(checkedImages.items) + Matches(paths[..k], images)
        invariant forall x :: x in images ==> x.checked == (old(x.checked) || x.path in paths[..k])
      {
        MarkPath(paths[k], images);
        MatchesPrefixStep(paths, k, images);
        k := k + 1;
      }
      assert paths[..|paths|] == paths;
    }

    /**
     * Checks every image of `images` whose path is `path` and appends it to
     * the caller's list, in index order.
     */
    method MarkPath(path: string, images: seq<AlbumImage>)
      modifies checkedImages, set x | x in images
      ensures checkedImages.items == old(checkedImages.items) + MatchesOf(path, images)
      ensures forall x :: x in images ==> x.checked == (old(x.checked) || x.path == path)
    {
      var i := 0;
      while i < |images|
        invariant 0 <= i <= |images|
        invariant checkedImages.items == old(checkedImages.items) + MatchesOf(path, images[..i])
        invariant forall x :: x in images ==>
                    x.checked == (old(x.checked) || (x.path == path && x in images[..i]))
      {
        var image := images[i];
        assert images[..i + 1] == images[..i] + [image];
        if path == image.path {
          image.checked := true;
          checkedImages.Add(image);
        }
        i := i + 1;
      }
      assert images[..|images|] == images;
    }

    /**
     * Builds the folders of the library: the checked "all images" folder
     * first, then, if the query completed, one folder per group. When the
     * query throws a `PSException`, the bucket folders built so far are
     * dropped, but the images they added to the "all images" folder stay
     * there (see `FailedScanKeepsImages`).
     */
    method GetPhotoAlbum(groups: seq<Group>, outcome: QueryOutcome, le: (ImageData, ImageData) -> bool)
      returns (folders: seq<AlbumFolder>, ghost created: seq<seq<AlbumImage>>)
      requires TotalPreorder(le)
      ensures ScanResult(folders, created, groups, outcome, allImagesLabel, le)
      ensures forall f :: f in folders ==> fresh(f)
      ensures forall x :: x in folders[0].images ==> fresh(x) && !x.checked
    {
      var all := new AlbumFolder();
      all.checked := true;
      all.name := allImagesLabel;
      var albumFolders: seq<AlbumFolder> := [];

      var built;
      built, created := BuildFolders(groups, ProcessedGroups(groups, outcome), all, le);
      if outcome.Completed? {
        albumFolders := built;
      }

      all.SortImages(le);
      assert AllImagesFolder(all, created, allImagesLabel, le);
      folders := [all] + albumFolders;
      AssembleScan(folders, all, built, created, groups, outcome, allImagesLabel, le);
    }

    /**
     * Runs the folder construction over the first `n` groups, in order:
     * builds each group's folder and adds its images to `all`.
     */
    method BuildFolders(groups: seq<Group>, n: nat, all: AlbumFolder, le: (ImageData, ImageData) -> bool)
      returns (built: seq<AlbumFolder>, ghost created: seq<seq<AlbumImage>>)
      requires n <= |groups| && all.images == [] && TotalPreorder(le)
      modifies all`images
      ensures |built| == n && all !in built && CreatedFor(created, groups, n)
      ensures all.images == Flatten(created)
      ensures forall x :: x in all.images ==> fresh(x) && !x.checked
      ensures forall k :: 0 <= k < n ==>
                fresh(built[k]) && BucketFolder(built[k], created[k], groups[k], le)
    {
      built, created := [], [];
      var i := 0;
      while i < n
        invariant 0 <= i <= n && |built| == i && all !in built && CreatedFor(created, groups, i)
        invariant all.images == Flatten(created)
        invariant forall x :: x in all.images ==> fresh(x) && !x.checked
        invariant forall k :: 0 <= k < i ==>
                    fresh(built[k]) && BucketFolder(built[k], created[k], groups[k], le)
      {
        ghost var before := all.images;
        var folder, images := BuildFolder(groups[i], all, le);
        DistinctAppend(before, images);
        CreatedForSnoc(created, images, groups, i);
        built := built + [folder];
        created := created + [images];
        i := i + 1;
      }
    }

    /**
     * Builds the folder of one group: creates an image per row, adds it both
     * to the new folder and to the "all images" folder `all`, names the folder
     * after the row's bucket, then sorts the folder's images.
     */
    method BuildFolder(group: Group, all: AlbumFolder, le: (ImageData, ImageData) -> bool)
      returns (folder: AlbumFolder, ghost created: seq<AlbumImage>)
      requires TotalPreorder(le)
      modifies all`images
      ensures fresh(folder) && BucketFolder(folder, created, group, le)
      ensures Distinct(created)
      ensures forall x :: x in created ==> fresh(x) && !x.checked && x !in old(all.images)
      ensures all.images == old(all.images) + created
    {
      folder := new AlbumFolder();
      folder.id := group.bucketId;
      created := [];
      var j := 0;
      while j < |group.rows|
        invariant 0 <= j <= |group.rows|
        invariant fresh(folder) && folder.id == group.bucketId && !folder.checked
        invariant folder.name == BucketName(Group(group.bucketId, group.rows[..j]))
        invariant Creates(created, group.rows[..j]) && Distinct(created)
        invariant forall x :: x in created ==> fresh(x) && !x.checked && x !in old(all.images)
        invariant folder.images == created
        invariant all.images == old(all.images) + created
      {
        var row := group.rows[j];
        var image := new AlbumImage(row.id, row.path, row.name, row.addTime);
        folder.name := row.bucketName;
        folder.AddPhoto(image);
        all.AddPhoto(image);
        assert group.rows[..j + 1] == group.rows[..j] + [row];
        CreatesSnoc(created, group.rows[..j], image, row);
        created := created + [image];
        j := j + 1;
      }
      assert group.rows[..j] == group.rows;
      folder.SortImages(le);
    }
  }
}
