/**
 * The image data source (`internal/services/compute/image_data_source.go`):
 * an image is looked up by name, or chosen among the images of a resource
 * group whose names match a regular expression, by sorting the matches by
 * name and taking the first.
 */
module Images {
  import opened Common
  import opened Terraform

  // ---------------------------------------------------------------------
  // The order on names
  // ---------------------------------------------------------------------

  /**
   * Go's `<` on strings: byte-wise lexicographic order of the UTF-8
   * encodings, which is the lexicographic order of the code points.
   */
  predicate Below(a: string, b: string)
  {
    if |a| == 0 then |b| > 0
    else if |b| == 0 then false
    else if a[0] != b[0] then a[0] < b[0]
    else Below(a[1..], b[1..])
  }

  lemma {:induction false} BelowIrreflexive(a: string)
    ensures !Below(a, a)
  {
    if |a| > 0 {
      BelowIrreflexive(a[1..]);
    }
  }

  lemma {:induction false} BelowTransitive(a: string, b: string, c: string)
    requires Below(a, b) && Below(b, c)
    ensures Below(a, c)
  {
    if |a| > 0 && a[0] == b[0] && b[0] == c[0] {
      BelowTransitive(a[1..], b[1..], c[1..]);
    }
  }

  /** Two different names are ordered one way or the other. */
  lemma {:induction false} BelowTotal(a: string, b: string)
    requires a != b
    ensures Below(a, b) || Below(b, a)
  {
    if |a| > 0 && |b| > 0 && a[0] == b[0] {
      assert a == [a[0]] + a[1..] && b == [b[0]] + b[1..];
      BelowTotal(a[1..], b[1..]);
    }
  }

  // ---------------------------------------------------------------------
  // Choosing among the matches
  // ---------------------------------------------------------------------

  /** An image as the listing returns it; every field may be absent. */
  datatype RemoteImage = RemoteImage(id: Option<string>, name: Option<string>, location: Option<string>)

  function NameOf(img: RemoteImage): string
  {
    if img.name.Some? then img.name.value else ""
  }

  /** The sort's less function: ascending by name, or descending when asked. */
  predicate SortsBefore(a: RemoteImage, b: RemoteImage, descending: bool)
  {
    if descending then Below(NameOf(b), NameOf(a)) else Below(NameOf(a), NameOf(b))
  }

  /**
   * The first image after sorting the matches: one that no other match
   * sorts before.  Of images with equal names the earliest is taken, where
   * the unstable sort leaves the choice open.
   */
  function Pick(matches: seq<RemoteImage>, descending: bool): (img: RemoteImage)
    requires |matches| > 0
    ensures img in matches
    decreases |matches|
  {
    if |matches| == 1 then matches[0]
    else
      var rest := Pick(matches[1..], descending);
      if SortsBefore(rest, matches[0], descending) then rest else matches[0]
  }

  /**
   * The chosen image sorts first: no match sorts before it, so with
   * ascending order its name is the least and with descending order the
   * greatest of the matches' names.
   */
  lemma {:induction false} PickSortsFirst(matches: seq<RemoteImage>, descending: bool, other: RemoteImage)
    requires other in matches
    ensures !SortsBefore(other, Pick(matches, descending), descending)
    decreases |matches|
  {
    var p := Pick(matches, descending);
    if |matches| == 1 {
      BelowIrreflexive(NameOf(p));
    } else {
      var rest := Pick(matches[1..], descending);
      if other == matches[0] {
        if p != other {
          if SortsBefore(other, p, descending) {
            // `p` was chosen because it sorts before `other`: both ways round is impossible.
            BelowTransitive(NameOf(p), NameOf(other), NameOf(p));
            BelowIrreflexive(NameOf(p));
          }
        } else {
          BelowIrreflexive(NameOf(p));
        }
      } else {
        assert other in matches[1..];
        PickSortsFirst(matches[1..], descending, other);
        if p != rest && SortsBefore(other, p, descending) {
          // p is matches[0], chosen because `rest` does not sort before it.
          if NameOf(rest) == NameOf(p) {
          } else {
            BelowTotal(NameOf(rest), NameOf(p));
            if descending {
              BelowTransitive(NameOf(rest), NameOf(p), NameOf(other));
            } else {
              BelowTransitive(NameOf(other), NameOf(p), NameOf(rest));
            }
          }
        }
      }
    }
  }

  /** With ascending order the chosen name is the least of the matches' names. */
  lemma AscendingPicksLeast(matches: seq<RemoteImage>, other: RemoteImage)
    requires other in matches
    ensures NameOf(Pick(matches, false)) == NameOf(other) || Below(NameOf(Pick(matches, false)), NameOf(other))
  {
    PickSortsFirst(matches, false, other);
    if NameOf(Pick(matches, false)) != NameOf(other) {
      BelowTotal(NameOf(Pick(matches, false)), NameOf(other));
    }
  }

  /** With descending order the chosen name is the greatest of the matches' names. */
  lemma DescendingPicksGreatest(matches: seq<RemoteImage>, other: RemoteImage)
    requires other in matches
    ensures NameOf(Pick(matches, true)) == NameOf(other) || Below(NameOf(other), NameOf(Pick(matches, true)))
  {
    PickSortsFirst(matches, true, other);
    if NameOf(Pick(matches, true)) != NameOf(other) {
      BelowTotal(NameOf(Pick(matches, true)), NameOf(other));
    }
  }

  /** A single match is chosen whichever way the sort would run. */
  lemma SingleMatchChosen(img: RemoteImage, descending: bool)
    ensures Pick([img], descending) == img
  {
  }

  // ---------------------------------------------------------------------
  // The listing loop
  // ---------------------------------------------------------------------

  /** One step of the listing: an image, and the outcome of moving past it. */
  datatype Step = Step(image: RemoteImage, next: Option<Error>)

  /** The images of the steps whose names match, in listing order. */
  function Matching(steps: seq<Step>, matches: string -> bool): (list: seq<RemoteImage>)
    ensures forall img :: img in list ==> img.name.Some? && matches(img.name.value)
    ensures |list| <= |steps|
  {
    if |steps| == 0 then []
    else
      var img := steps[|steps| - 1].image;
      Matching(steps[..|steps| - 1], matches)
      + (if img.name.Some? && matches(img.name.value) then [img] else [])
  }

  /** The listing runs through every step: every image has a name, and every move succeeds. */
  predicate Completes(steps: seq<Step>)
  {
    forall k :: 0 <= k < |steps| ==> steps[k].image.name.Some? && steps[k].next.None?
  }

  /**
   * The loop over the listing: each image whose name matches is appended.
   * An image without a name stops it (the match dereferences the name), as
   * does a failed move to the next image.
   */
  method CollectMatches(steps: seq<Step>, matches: string -> bool) returns (err: Option<Error>, list: seq<RemoteImage>)
    ensures err.None? <==> Completes(steps)
    ensures err.None? ==> list == Matching(steps, matches)
  {
    list := [];
    var i := 0;
    while i < |steps|
      invariant 0 <= i <= |steps|
      invariant Completes(steps[..i])
      invariant list == Matching(steps[..i], matches)
    {
      assert steps[..i + 1][..i] == steps[..i];
      var img := steps[i].image;
      if img.name.None? {
        return Some(NilDereference("image name")), list;
      }
      if matches(img.name.value) {
        list := list + [img];
      }
      if steps[i].next.Some? {
        return Some(steps[i].next.value), list;
      }
      i := i + 1;
    }
    assert steps[..|steps|] == steps;
    err := None;
  }

  // ---------------------------------------------------------------------
  // The read handler
  // ---------------------------------------------------------------------

  /** The remote calls the read handler makes. */
  datatype ImageCall = GetImage(resourceGroup: string, name: string) | ListImages(resourceGroup: string)

  /** The image the lookup settles on, or the error it stops with. */
  function Lookup(resourceGroup: string, name: string, nameRegex: string, matches: string -> bool,
                  descending: bool, get: Reply<RemoteImage>, listing: Reply<seq<Step>>): Result<RemoteImage>
  {
    if nameRegex == "" then
      if get.WasNotFound() then Err(Missing("image " + name))
      else if get.Failure? then Err(get.AsError())
      else Ok(get.body)
    else if listing.WasNotFound() then Err(Missing("images of " + resourceGroup))
    else if listing.Failure? then Err(listing.AsError())
    else if !Completes(listing.body) then Err(Invalid("listing stopped"))
    else
      var list := Matching(listing.body, matches);
      if |list| == 0 then Err(Missing("images of " + resourceGroup)) else Ok(Pick(list, descending))
  }

  /**
   * `imageDataSourceRead`.  A name or a regular expression is required;
   * `name_regex` counts as given when it is not empty.  Without one the
   * image is read by name, and a missing image is an error rather than a
   * cleared ID.  With one, the resource group's images are listed, those
   * whose names `matches` accepts are kept, no match is an error, and of
   * several the first by name (the last with `descending`) is chosen.  The
   * ID stored is the chosen image's.
   */
  method Read(d: ResourceData, resourceGroup: string, name: string, nameRegex: string, matches: string -> bool,
              descending: bool, get: Reply<RemoteImage>, listing: Reply<seq<Step>>)
    returns (err: Option<Error>, chosen: Option<RemoteImage>, calls: seq<ImageCall>)
    modifies d
    ensures name == "" && nameRegex == "" ==>
      err == Some(Invalid("either name or name_regex is required")) && calls == [] && d.id == old(d.id)
    ensures name != "" && nameRegex == "" ==> calls == [GetImage(resourceGroup, name)]
    ensures nameRegex != "" ==> calls == [ListImages(resourceGroup)]
    ensures nameRegex == "" && get.Failure? ==> err.Some? && d.id == old(d.id)
    ensures (nameRegex != "" && listing.Success? && Completes(listing.body)
             && |Matching(listing.body, matches)| == 0) ==> err.Some? && d.id == old(d.id)
    ensures err.None? <==>
      (name != "" || nameRegex != "") && Lookup(resourceGroup, name, nameRegex, matches, descending, get, listing).Ok?
      && Lookup(resourceGroup, name, nameRegex, matches, descending, get, listing).value.id.Some?
    ensures err.None? ==>
      chosen == Some(Lookup(resourceGroup, name, nameRegex, matches, descending, get, listing).value)
      && d.id == chosen.value.id.value
    ensures err.Some? ==> d.id == old(d.id)
  {
    chosen := None;
    calls := [];
    if name == "" && nameRegex == "" {
      return Some(Invalid("either name or name_regex is required")), chosen, calls;
    }
    var img: RemoteImage;
    if nameRegex == "" {
      calls := [GetImage(resourceGroup, name)];
      if get.Failure? {
        if get.WasNotFound() {
          return Some(Missing("image " + name)), chosen, calls;
        }
        return Some(get.AsError()), chosen, calls;
      }
      img := get.body;
    } else {
      calls := [ListImages(resourceGroup)];
      if listing.Failure? {
        if listing.WasNotFound() {
          return Some(Missing("images of " + resourceGroup)), chosen, calls;
        }
        return Some(listing.AsError()), chosen, calls;
      }
      var list;
      err, list := CollectMatches(listing.body, matches);
      if err.Some? {
        return err, chosen, calls;
      }
      if |list| < 1 {
        return Some(Missing("images of " + resourceGroup)), chosen, calls;
      }
      if |list| > 1 {
        img := Pick(list, descending);
      } else {
        img := list[0];
      }
    }
    if img.id.None? {
      return Some(NilDereference("image ID")), chosen, calls;
    }
    d.id := img.id.value;
    chosen := Some(img);
    err := None;
  }
}
