/**
 * The two records the scan produces: an image of the media library and an
 * album folder holding images.
 *
 * Images are shared by reference between the folder of their bucket and the
 * synthetic "all images" folder, so that checking an image is seen from
 * both; they are therefore objects. An image's recorded data is set once,
 * right after the image is created, and never changes afterwards, so it is
 * held in `const` fields; only the checked flag is updated in place.
 */
module Entity {
  import opened Sorting

  /** The recorded data of an image: what the natural image ordering may look at. */
  datatype ImageData = ImageData(id: int, path: string, name: string, addTime: int)

  class AlbumImage {
    const id: int
    const path: string
    const name: string
    const addTime: int
    var checked: bool

    /** A new image is unchecked. */
    constructor (id: int, path: string, name: string, addTime: int)
      ensures this.id == id && this.path == path && this.name == name && this.addTime == addTime
      ensures !checked
    {
      this.id := id;
      this.path := path;
      this.name := name;
      this.addTime := addTime;
      checked := false;
    }
  }

  /** The sort key of an image. */
  function DataOf(image: AlbumImage): ImageData {
    ImageData(image.id, image.path, image.name, image.addTime)
  }

  class AlbumFolder {
    var id: int
    var name: string
    var checked: bool
    var images: seq<AlbumImage>

    /** A new folder has no id, no name, is unchecked and holds no image. */
    constructor ()
      ensures id == 0 && name == "" && !checked && images == []
    {
      id := 0;
      name := "";
      checked := false;
      images := [];
    }

    /** Appends `image` to the folder's images. */
    method AddPhoto(image: AlbumImage)
      modifies this`images
      ensures images == old(images) + [image]
    {
      images := images + [image];
    }

    /** Sorts the folder's images in place by the natural image ordering `le`. */
    method SortImages(le: (ImageData, ImageData) -> bool)
      requires TotalPreorder(le)
      modifies this`images
      ensures Sorted(images, DataOf, le)
      ensures multiset(images) == multiset(old(images))
      ensures forall x :: x in images <==> x in old(images)
    {
      images := Sort(images, DataOf, le);
      forall x ensures x in images <==> x in old(images) {
        assert x in images <==> x in multiset(images);
      }
    }
  }
}
