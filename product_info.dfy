/**
 * The basic-information tab of the product form
 * (components/product-form/product-info-tab.tsx): the product's images, its
 * tags and the text box for a new tag.
 */
module ProductInfo {

  import Text
  import Lists

  /** Every element but the one at position `index`. */
  function RemoveAt<T>(s: seq<T>, index: int): (r: seq<T>)
    ensures 0 <= index < |s| ==> |r| == |s| - 1
    ensures 0 <= index < |s| ==> forall k {:trigger r[k]} :: 0 <= k < |r| ==> r[k] == if k < index then s[k] else s[k + 1]
    ensures !(0 <= index < |s|) ==> r == s
  {
    if s == [] then []
    else
      var rest := RemoveAt(s[1..], index - 1);
      if index == 0 then rest
      else
        var r := [s[0]] + rest;
        assert forall k :: 0 < k < |r| ==> r[k] == rest[k - 1];
        r
  }

  /** A tag as the list keeps it: not empty and without surrounding white space. */
  predicate IsTag(t: string)
  {
    t != "" && Text.IsTrimmed(t)
  }

  /** The tag list's invariant: no tag twice, every tag trimmed and non-empty. */
  predicate ValidTags(tags: seq<string>)
  {
    Lists.Distinct(tags) && forall i :: 0 <= i < |tags| ==> IsTag(tags[i])
  }

  lemma AppendKeepsValid(tags: seq<string>, t: string)
    requires ValidTags(tags) && IsTag(t) && t !in tags
    ensures ValidTags(tags + [t])
  {
    var r := tags + [t];
    forall i, j | 0 <= i < j < |r| ensures r[i] != r[j] {
      if j == |tags| {
        assert r[i] == tags[i];
      }
    }
  }

  const InitialTags: seq<string> := ["electronics", "wireless"]

  class ProductInfoTab {
    var images: seq<string>
    var tags: seq<string>
    var newTag: string

    predicate Valid()
      reads this
    {
      ValidTags(tags)
    }

    constructor()
      ensures Valid()
      ensures images == [] && tags == InitialTags && newTag == ""
    {
      images := [];
      tags := InitialTags;
      newTag := "";
    }

    /** The tag text box. */
    method SetNewTag(text: string)
      modifies this
      ensures newTag == text && tags == old(tags) && images == old(images)
    {
      newTag := text;
    }

    /**
     * `addTag`: a trimmed, non-empty tag not yet in the list is appended and
     * the text box cleared; otherwise nothing changes.
     */
    method AddTag()
      requires Valid()
      modifies this
      ensures Valid()
      ensures var t := Text.Trim(old(newTag));
        if t != "" && t !in old(tags) then tags == old(tags) + [t] && newTag == ""
        else tags == old(tags) && newTag == old(newTag)
      ensures images == old(images)
    {
      var t := Text.Trim(newTag);
      if t != "" && t !in tags {
        Text.TrimIsTrimmed(newTag);
        AppendKeepsValid(tags, t);
        tags := tags + [t];
        newTag := "";
      }
    }

    /** `removeTag`: every copy of the tag goes, the others keep their order. */
    method RemoveTag(tag: string)
      requires Valid()
      modifies this
      ensures Valid()
      ensures tags == Lists.RemoveAll(old(tags), tag)
      ensures tag !in tags && Lists.IsSubsequence(tags, old(tags))
      ensures images == old(images) && newTag == old(newTag)
    {
      var r := Lists.RemoveAll(tags, tag);
      Lists.SubsequenceDistinct(r, tags);
      forall i | 0 <= i < |r| ensures IsTag(r[i]) {
        Lists.SubsequenceMember(r, tags, i);
      }
      tags := r;
    }

    /** `removeImage`: the image at that position goes, the rest keep their order. */
    method RemoveImage(index: int)
      modifies this
      ensures images == RemoveAt(old(images), index)
      ensures tags == old(tags) && newTag == old(newTag)
    {
      images := RemoveAt(images, index);
    }

    /** `handleImageUpload`: the new images' URLs are appended after the existing ones. */
    method UploadImages(urls: seq<string>)
      modifies this
      ensures images == old(images) + urls
      ensures tags == old(tags) && newTag == old(newTag)
    {
      images := images + urls;
    }
  }
}
