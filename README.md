# Album image scan

A model of the image scan of the Album picker library (`ScanTask`). The scan
reads the images of the device's media library, grouped by bucket
(directory). It builds one album folder per bucket. It also builds a
synthetic "all images" folder, which is created checked and holds every
image. That folder is sorted and put first in the result. When the query
throws a `PSException`, the result is that folder alone. The scan then reconciles the
caller's already-selected paths: for each path in turn and each image of the
"all images" folder in turn, an image whose path equals the path is checked
and appended to the caller's list of checked images.

The model is imperative, like the source:

- images and folders are classes (`Entity.AlbumImage`, `Entity.AlbumFolder`);
- a folder's image list is a `seq` field that `addPhoto` and the in-place sort reassign;
- an image's `checked` flag is a field set in place;
- the caller's list is an `ImageList` object whose `items` field the scan appends to;
- the two loops of the reconciliation and the row loop of the folder construction are `while` loops with invariants.

The query's result is an input: a sequence of `Group`s of `ImageRow`s
(id, path, name, add time, bucket id, bucket name), in the order the grouping
emits them, together with a `QueryOutcome` saying whether the query
completed or threw a `PSException` after some number of groups. The images' natural
ordering is an arbitrary total preorder `le` on an image's recorded data.

Files:
- `sorting.dfy`: the total preorder, sortedness, and the list sort as an insertion sort.
- `entity.dfy`: the image and folder records.
- `scan_task.dfy`: the scan itself, the specification functions of the reconciliation, and the lemmas about both.

`Task.ScanResult` states the shape of the scan's result:
- the first folder has id 0, is named with the label and is checked;
- it holds, sorted, exactly the images created for the processed groups;
- a completed scan then has one folder per group, in group order;
- each group's folder carries the bucket id and the name of the bucket of its last row;
- each group's folder is unchecked and holds, sorted, exactly that group's images;
- a failed scan has the first folder only.

After a completed scan the "all images" folder holds as many images as the
bucket folders together (`Task.AggregateCount`). That does not hold after a
`PSException`: the images of the groups processed before the throw stay in
the "all images" folder while their bucket folders are dropped
(`Task.FailedScanKeepsImages`).

## Model

| member | source | states |
|---|---|---|
| Sorting.Insert | album/src/main/java/com/yanzhenjie/album/task/ScanTask.java:155 | Inserting an image into a sorted list gives a sorted list holding the old images plus that one (as a multiset). |
| Sorting.Sort | album/src/main/java/com/yanzhenjie/album/task/ScanTask.java:155 | The list sort returns a list sorted by the total preorder that is a permutation of its input. |
| Entity.AlbumImage.constructor | album/src/main/java/com/yanzhenjie/album/task/ScanTask.java:134-138 | A new image carries the row's id, path, name and add time and is unchecked. |
| Entity.AlbumFolder.constructor | album/src/main/java/com/yanzhenjie/album/task/ScanTask.java:122 | A new folder has id 0, an empty name, is unchecked and holds no image. |
| Entity.AlbumFolder.AddPhoto | album/src/main/java/com/yanzhenjie/album/task/ScanTask.java:152-153 | Adding a photo appends it to the folder's images and changes nothing else. |
| Entity.AlbumFolder.SortImages | album/src/main/java/com/yanzhenjie/album/task/ScanTask.java:164 | Sorting a folder in place leaves its images sorted, as a permutation of the images it held, with the same members. |
| Task.ProcessedGroups | album/src/main/java/com/yanzhenjie/album/task/ScanTask.java:128-162 | The number of groups whose folder is built is at most the number of groups, and is all of them when the query completes. |
| Task.AssembleScan | album/src/main/java/com/yanzhenjie/album/task/ScanTask.java:164-166 | Putting the sorted "all images" folder in front of the bucket folders of a completed query, or in front of an empty list after a failure, gives a result of the scan's shape. |
| Task.DistinctAppend | album/src/main/java/com/yanzhenjie/album/task/ScanTask.java:153 | Images of a new group, all new, appended to the "all images" folder leave no image in it twice. |
| Task.MatchesOfAppend | album/src/main/java/com/yanzhenjie/album/task/ScanTask.java:103-109 | The images matching one path come in index order: those of a prefix of the images before those of the rest. |
| Task.MatchesAppend | album/src/main/java/com/yanzhenjie/album/task/ScanTask.java:102-110 | Matches come path-major: the matches of earlier paths precede those of later paths. |
| Task.MatchesPrefixStep | album/src/main/java/com/yanzhenjie/album/task/ScanTask.java:102-110 | One more path of the list adds exactly that path's matches after those of the paths before it. |
| Task.MatchesOfCount | album/src/main/java/com/yanzhenjie/album/task/ScanTask.java:103-109 | An image matches a path as many times as it occurs among the images if it has that path, and never otherwise. |
| Task.MatchesCount | album/src/main/java/com/yanzhenjie/album/task/ScanTask.java:102-108 | An image is appended once per occurrence of its path among the selected paths and per occurrence of itself among the images: duplicate paths give duplicate appends, and every image having a selected path is appended. |
| Task.MatchesCountStep | album/src/main/java/com/yanzhenjie/album/task/ScanTask.java:102-108 | One more path adds the image's matches of that path to its count, and one occurrence of that path when it is the image's path. |
| Task.MatchesMembers | album/src/main/java/com/yanzhenjie/album/task/ScanTask.java:102-108 | An image is appended exactly when it is one of the images and its path equals one of the selected paths (both directions). |
| Task.MatchesLength | album/src/main/java/com/yanzhenjie/album/task/ScanTask.java:102-108 | The number of appended images equals the number of (path, image) pairs whose path equals the image's path. |
| Task.EqualPairsSnoc | album/src/main/java/com/yanzhenjie/album/task/ScanTask.java:102-108 | One more path adds its number of matching images to the number of equal pairs. |
| Task.EqualPairsEmpty | album/src/main/java/com/yanzhenjie/album/task/ScanTask.java:102-108 | The base case of the pair count: with no path there is no equal pair, matching the empty list of matches. |
| Task.FlattenContains | album/src/main/java/com/yanzhenjie/album/task/ScanTask.java:153 | Each group's images are among the images of all groups together. |
| Task.FlattenCount | album/src/main/java/com/yanzhenjie/album/task/ScanTask.java:152-153 | The images of all groups together are as many as the folders holding each group hold together. |
| Task.AggregateHoldsBucketImages | album/src/main/java/com/yanzhenjie/album/task/ScanTask.java:152-153 | Every image of a bucket folder is also in the "all images" folder (as a sub-multiset). |
| Task.BucketImagesShareFlags | album/src/main/java/com/yanzhenjie/album/task/ScanTask.java:101-110 | Bucket folders share their image objects with the "all images" folder, so an image's checked flag seen from its bucket folder is the one the reconciliation set. |
| Task.AggregateCount | album/src/main/java/com/yanzhenjie/album/task/ScanTask.java:146-154 | After a completed scan the "all images" folder holds as many images as all bucket folders together. |
| Task.FlattenRowCount | album/src/main/java/com/yanzhenjie/album/task/ScanTask.java:149-153 | Images made one per row, group by group, are as many as the rows of those groups. |
| Task.AggregateRowCount | album/src/main/java/com/yanzhenjie/album/task/ScanTask.java:149-153 | Whether or not the query completed, the "all images" folder holds one image per row of the groups processed before it ended. |
| Task.FailedScanKeepsImages | album/src/main/java/com/yanzhenjie/album/task/ScanTask.java:128-166 | After a `PSException` the result is the "all images" folder alone, with no bucket folder, yet it keeps one image per row of the groups processed before the throw: its count is then not the bucket folders' total. |
| Task.FailedScanExample | album/src/main/java/com/yanzhenjie/album/task/ScanTask.java:128-166 | A throw after a first group of one row leaves a single folder holding one image. |
| Task.ImageList.constructor | album/src/main/java/com/yanzhenjie/album/task/ScanTask.java:73 | A new caller's list is empty. |
| Task.ImageList.Add | album/src/main/java/com/yanzhenjie/album/task/ScanTask.java:107 | Adding appends the image at the end of the caller's list. |
| Task.ScanTask.constructor | album/src/main/java/com/yanzhenjie/album/task/ScanTask.java:76-81 | The task keeps the caller's list and the label of the "all images" folder. |
| Task.ScanTask.DoInBackground | album/src/main/java/com/yanzhenjie/album/task/ScanTask.java:97-113 | The result has the scan's shape. The caller's list keeps its old contents as a prefix, followed by the matches of the selected paths in path-major, then index, order. With no list or an empty one nothing is appended. Every image of the "all images" folder is checked exactly when its path is selected. |
| Task.ScanTask.MarkChecked | album/src/main/java/com/yanzhenjie/album/task/ScanTask.java:102-110 | The outer loop appends the matches of every path in turn and checks exactly the images whose path is one of the paths, leaving other flags as they were. |
| Task.ScanTask.MarkPath | album/src/main/java/com/yanzhenjie/album/task/ScanTask.java:103-109 | The inner loop appends the images whose path equals the path, in index order, and checks exactly those, leaving other flags as they were. |
| Task.ScanTask.GetPhotoAlbum | album/src/main/java/com/yanzhenjie/album/task/ScanTask.java:121-167 | The result has the scan's shape: the checked, sorted "all images" folder first, then, if the query completed, one sorted folder per group in group order; after a failure the "all images" folder alone. Every image is new and unchecked. |
| Task.ScanTask.BuildFolders | album/src/main/java/com/yanzhenjie/album/task/ScanTask.java:128-159 | The folder function, run over the processed groups in order, builds each group's folder and leaves in the "all images" folder every image created, group after group, none twice. |
| Task.ScanTask.BuildFolder | album/src/main/java/com/yanzhenjie/album/task/ScanTask.java:143-157 | A group's folder carries the bucket id and the last row's bucket name and holds, sorted, one new image per row. Those images are appended in row order to the "all images" folder. |

## Left out

- The `AsyncTask` lifecycle: showing and dismissing the wait dialog and the UI-thread callback (`onPreExecute`, `onPostExecute`). They are UI concerns.
- The media library query: the PrivacyStreams pipeline (`getData`, `setField`, the file-path operator, `groupBy`, `asList`) and the MediaStore projection. These are foreign calls. Their result is an input of the model: the rows already grouped by bucket id, in the grouping's order.
- Only a `PSException` from the query is modelled, the one exception the scan catches. Any other exception escaping the query (an unchecked cast or unboxing failure on a row's fields, say) propagates out of the scan, which then returns no folder list; the model has no such outcome.
- A query failure is modelled at group granularity: a `PSException` is thrown after some number of complete groups. A throw in the middle of a group's rows, or one whose timing inside the library is not known, is not modelled.
- The localized label of the "all images" folder (`context.getString`) is an opaque string held by the task.
- `AlbumImage.compareTo` is not part of this model. The natural ordering is an arbitrary total preorder on an image's id, path, name and add time.
- Sorting.Sort: stands for `Collections.sort` by its contract only: a sorted permutation. Stability and the merge sort's element order among equal images are not stated.
- `AlbumFolder` and `AlbumImage` are not part of this model beyond the fields and methods the scan uses. The "all images" folder's id is never set by the scan; the model gives it 0, the Java default.
- The creation of an image happens, in the source, in an earlier `setField` step over all rows. The model creates each image in `BuildFolder`, just before it is added. Images of groups after a failure are therefore not created in the model; they are unreachable in the source.
- `params[0]` as an array and `null` entries inside the path list: the path list is an `Option` of a sequence of strings, so a `null` path (which would throw in the source) is not modelled.
- A `null` caller's list of checked images, which the task stores as given and on which the first match would throw a `NullPointerException`, is not modelled: the caller's list is always an object. Nor is a `null` image path, which no selected path equals; every image path is a string.
- `printStackTrace` on failure: logging.
- `BasicCameraFragment` is not part of this model: camera intent dispatch and a permission dialog, with no computed result.
- Task.ScanTask.DoInBackground: it states that the "all images" folder's image sequence and the folder list keep the shape of the scan through `Task.ScanResult` after the reconciliation. It does not state in one clause that they are the same sequences as before it; that follows from the reconciliation's frame, which modifies only the caller's list and the images' fields.
