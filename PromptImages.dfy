/** The list of images attached to the prompt, as data URIs, and the three
    ways the app changes it: adding an image (duplicates ignored), removing
    the image at a position, and removing every copy of one image when the
    detail view of that image is closed. */
module PromptImages {

  predicate NoDuplicates(s: seq<string>) {
    forall i, j :: 0 <= i < j < |s| ==> s[i] != s[j]
  }

  /** `handleAddImageToPrompt`'s updater: an image already in the list leaves
      it unchanged; any other image is appended at the end. */
  function WithImage(images: seq<string>, image: string): (r: seq<string>)
    ensures image in r
    ensures images <= r
    ensures forall x :: x in r <==> x in images || x == image
    ensures image in images ==> r == images
    ensures image !in images ==> |r| == |images| + 1 && r[|images|] == image
  {
    if image in images then images else images + [image]
  }

  /** Adding keeps a list free of duplicates. */
  lemma WithImageNoDuplicates(images: seq<string>, image: string)
    requires NoDuplicates(images)
    ensures NoDuplicates(WithImage(images, image))
  {
  }

  /** The elements whose position, counted from `offset`, is not `index`. */
  function WithoutPosition(s: seq<string>, index: int, offset: int): (r: seq<string>)
    ensures offset <= index < offset + |s| ==> r == s[..index - offset] + s[index - offset + 1..]
    ensures !(offset <= index < offset + |s|) ==> r == s
  {
    if s == [] then []
    else
      var rest := WithoutPosition(s[1..], index, offset + 1);
      if index == offset then
        assert rest == s[1..];
        rest
      else
        assert offset < index < offset + |s| ==> s[..index - offset] == [s[0]] + s[1..][..index - offset - 1];
        [s[0]] + rest
  }

  /** `handleRemovePromptImage`'s updater, `filter((_, i) => i !== index)`:
      only position `index` goes; any other index changes nothing. */
  function WithoutIndex(images: seq<string>, index: int): (r: seq<string>)
    ensures 0 <= index < |images| ==> |r| == |images| - 1 && r == images[..index] + images[index + 1..]
    ensures !(0 <= index < |images|) ==> r == images
  {
    WithoutPosition(images, index, 0)
  }

  /** `filter(img => img !== image)`: every copy of `image` goes, the rest keep their order. */
  function WithoutImage(images: seq<string>, image: string): (r: seq<string>)
    ensures image !in r
    ensures forall x :: x != image ==> (x in r <==> x in images)
    ensures |r| <= |images|
    ensures multiset(r) == multiset(images)[image := 0]
  {
    if images == [] then []
    else
      assert images == [images[0]] + images[1..];
      (if images[0] == image then [] else [images[0]]) + WithoutImage(images[1..], image)
  }

  /** The filter works element by element: on a concatenation it filters
      each part and keeps them in order. */
  lemma {:induction false} WithoutImageConcat(a: seq<string>, b: seq<string>, image: string)
    ensures WithoutImage(a + b, image) == WithoutImage(a, image) + WithoutImage(b, image)
  {
    if a != [] {
      var head := if a[0] == image then [] else [a[0]];
      assert (a + b)[0] == a[0] && (a + b)[1..] == a[1..] + b;
      WithoutImageConcat(a[1..], b, image);
      calc {
        WithoutImage(a + b, image);
        head + WithoutImage(a[1..] + b, image);
        head + (WithoutImage(a[1..], image) + WithoutImage(b, image));
        (head + WithoutImage(a[1..], image)) + WithoutImage(b, image);
        WithoutImage(a, image) + WithoutImage(b, image);
      }
    } else {
      assert a + b == b;
    }
  }

  /** A list without `image` is not changed by removing it. */
  lemma {:induction false} WithoutAbsentImage(images: seq<string>, image: string)
    requires image !in images
    ensures WithoutImage(images, image) == images
  {
    if images != [] {
      WithoutAbsentImage(images[1..], image);
    }
  }

  /** Removing an image after appending it only removes what was appended and earlier copies. */
  lemma {:induction false} WithoutImageAppend(images: seq<string>, image: string)
    ensures WithoutImage(images + [image], image) == WithoutImage(images, image)
  {
    if images == [] {
      assert images + [image] == [image];
    } else {
      assert (images + [image])[1..] == images[1..] + [image];
      WithoutImageAppend(images[1..], image);
    }
  }

  /** Viewing an image adds it to the prompt and closing the view removes it:
      for an image that was not attached, the list returns to what it was;
      for one that was, every copy of it is gone. */
  lemma ViewThenClose(images: seq<string>, image: string)
    ensures image !in images ==> WithoutImage(WithImage(images, image), image) == images
    ensures image in images ==> WithoutImage(WithImage(images, image), image) == WithoutImage(images, image)
  {
    if image !in images {
      WithoutImageAppend(images, image);
      WithoutAbsentImage(images, image);
    }
  }
}
