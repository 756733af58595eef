/** Listings: the validation rules of properties, their media and
    subscriptions (backend/properties/models.py).

    Each `clean` is a function that returns the validation message it would
    raise, or `None`. The MIME type of an uploaded image is an input (its
    detection by content sniffing is library code). Database tables that a
    check or a uniqueness constraint consults are sequences of rows. */
module Listings {
  import opened Text

  datatype ListingType = Sale | Rent | Both

  datatype PropertyStatus = Available | Sold | Rented | UnderMaintenance

  const RentalCannotBeSold := "A rental property cannot have status 'sold'"
  const SaleCannotBeRented := "A sale property cannot have status 'rented'"

  /** `Property.clean`: a rental cannot be sold and a sale cannot be rented;
      every other combination, including anything listed for both, passes. */
  function PropertyClean(listing: ListingType, status: PropertyStatus): (r: Option<string>)
    ensures r == Some(RentalCannotBeSold) <==> listing == Rent && status == Sold
    ensures r == Some(SaleCannotBeRented) <==> listing == Sale && status == Rented
    ensures r.None? <==> !(listing == Rent && status == Sold) && !(listing == Sale && status == Rented)
    ensures listing == Both ==> r.None?
  {
    if listing == Rent && status == Sold then Some(RentalCannotBeSold)
    else if listing == Sale && status == Rented then Some(SaleCannotBeRented)
    else None
  }

  // ---------------------------------------------------------------------
  // Videos

  /** 500 MB, the largest video `PropertyVideo.clean` accepts. */
  const MaxVideoBytes: nat := 524288000

  const VideoTooLarge := "Maximum video file size is 500MB"
  const VideoBadExtension := "Only MP4 and MOV files are allowed"

  datatype VideoFile = VideoFile(size: nat, name: string)

  /** `name.lower().endswith(('.mp4', '.mov'))`. */
  predicate HasVideoExtension(name: string)
  {
    var lowered := Lower(name);
    EndsWith(lowered, ".mp4") || EndsWith(lowered, ".mov")
  }

  /** `PropertyVideo.clean`: with a file attached, first the size limit (a
      file of exactly 500 MB passes), then the extension. */
  function VideoClean(file: Option<VideoFile>): (r: Option<string>)
    ensures file.None? ==> r.None?
    ensures file.Some? && file.value.size > MaxVideoBytes ==> r == Some(VideoTooLarge)
    ensures r.None? <==> file.None? || (file.value.size <= MaxVideoBytes && HasVideoExtension(file.value.name))
  {
    match file
    case None => None
    case Some(f) =>
      if f.size > MaxVideoBytes then Some(VideoTooLarge)
      else if !HasVideoExtension(f.name) then Some(VideoBadExtension)
      else None
  }

  /** The extension test looks only at the last four characters, in any
      case: it holds exactly when they lower-case to ".mp4" or ".mov". */
  lemma HasVideoExtensionByTail(name: string)
    ensures HasVideoExtension(name) <==>
      |name| >= 4 && (Lower(name[|name| - 4..]) == ".mp4" || Lower(name[|name| - 4..]) == ".mov")
  {
    if |name| >= 4 {
      var tail := name[|name| - 4..];
      var lowered := Lower(name);
      assert Lower(tail) == lowered[|name| - 4..] by {
        forall i | 0 <= i < 4 ensures Lower(tail)[i] == lowered[|name| - 4..][i] {
          assert tail[i] == name[|name| - 4 + i];
        }
      }
    }
  }

  /** Upper-case extensions pass: the boundary cases of the size limit and
      the case-insensitive comparison. */
  lemma VideoExamples()
    ensures VideoClean(Some(VideoFile(MaxVideoBytes, "a.MOV"))).None?
    ensures VideoClean(Some(VideoFile(MaxVideoBytes + 1, "a.mp4"))) == Some(VideoTooLarge)
    ensures VideoClean(Some(VideoFile(10, "a.avi"))) == Some(VideoBadExtension)
  {
    var upper, other := Lower("a.MOV"), Lower("a.avi");
    assert upper[1] == '.' && upper[2] == 'm' && upper[3] == 'o' && upper[4] == 'v';
    assert upper[1..] == ".mov";
    assert other[4] == 'i';
  }

  // ---------------------------------------------------------------------
  // Images

  const AllowedImageTypes: set<string> := {"image/jpeg", "image/png", "image/gif"}

  const ImageBadType := "Only JPEG, PNG, and GIF images are allowed."
  const PrimaryTaken := "A primary image already exists for this property"

  /** A stored `PropertyImage` row. */
  datatype ImageRow = ImageRow(pk: nat, property: nat, isPrimary: bool)

  /** An image being validated: `pk` is `None` before its first save, and
      `mime` is the detected type of the attached file (`None`: no file). */
  datatype ImageCandidate = ImageCandidate(pk: Option<nat>, property: nat, isPrimary: bool, mime: Option<string>)

  /** The query of `PropertyImage.clean`: a primary image of the same
      property whose pk differs from the candidate's. `exclude(pk=None)`
      excludes nothing, so for a new image every primary counts. */
  predicate OtherPrimaryExists(table: seq<ImageRow>, img: ImageCandidate)
  {
    exists i :: 0 <= i < |table| && table[i].property == img.property && table[i].isPrimary &&
      img.pk != Some(table[i].pk)
  }

  lemma PrimaryWitness(table: seq<ImageRow>, img: ImageCandidate, k: int)
    requires 0 <= k < |table| && table[k].property == img.property && table[k].isPrimary
    requires img.pk != Some(table[k].pk)
    ensures OtherPrimaryExists(table, img)
  {
  }

  /** `PropertyImage.clean`: the MIME type first, then primary uniqueness. */
  function ImageClean(table: seq<ImageRow>, img: ImageCandidate): (r: Option<string>)
    ensures img.mime.Some? && img.mime.value !in AllowedImageTypes ==> r == Some(ImageBadType)
    ensures r.None? <==>
      (img.mime.None? || img.mime.value in AllowedImageTypes) &&
      !(img.isPrimary && OtherPrimaryExists(table, img))
  {
    if img.mime.Some? && img.mime.value !in AllowedImageTypes then Some(ImageBadType)
    else if img.isPrimary && OtherPrimaryExists(table, img) then Some(PrimaryTaken)
    else None
  }

  /** Row keys are unique. */
  predicate UniquePks(table: seq<ImageRow>)
  {
    forall i, j :: 0 <= i < j < |table| ==> table[i].pk != table[j].pk
  }

  /** No property has two primary images. */
  predicate AtMostOnePrimary(table: seq<ImageRow>)
  {
    forall i, j :: 0 <= i < j < |table| && table[i].isPrimary && table[j].isPrimary ==>
      table[i].property != table[j].property
  }

  function MaxPk(table: seq<ImageRow>): (m: nat)
    ensures forall i :: 0 <= i < |table| ==> table[i].pk <= m
  {
    if table == [] then 0
    else
      var rest := MaxPk(table[..|table| - 1]);
      var last := table[|table| - 1].pk;
      if last > rest then last else rest
  }

  function IndexOfPk(table: seq<ImageRow>, pk: nat): (r: Option<nat>)
    ensures r.Some? ==> r.value < |table| && table[r.value].pk == pk
    ensures r.None? ==> forall i :: 0 <= i < |table| ==> table[i].pk != pk
  {
    if table == [] then None
    else if table[|table| - 1].pk == pk then Some(|table| - 1)
    else IndexOfPk(table[..|table| - 1], pk)
  }

  /** The pk an accepted image is stored under: its own, or for a new image
      one above every stored pk, so it replaces nothing. */
  function StoredPk(table: seq<ImageRow>, img: ImageCandidate): (pk: nat)
    ensures img.pk.Some? ==> pk == img.pk.value
    ensures img.pk.None? ==> forall i :: 0 <= i < |table| ==> table[i].pk != pk
  {
    if img.pk.Some? then img.pk.value else MaxPk(table) + 1
  }

  const ImageBlank := "This field cannot be blank."

  /** `full_clean()`: `clean_fields` refuses an image without a file (the
      `image` field is not `blank=True`), then `clean` runs its own tests.
      The field error is reported ahead of `clean`'s. */
  function ImageFullClean(table: seq<ImageRow>, img: ImageCandidate): (r: Option<string>)
    ensures img.mime.None? ==> r == Some(ImageBlank)
    ensures img.mime.Some? ==> r == ImageClean(table, img)
  {
    if img.mime.None? then Some(ImageBlank) else ImageClean(table, img)
  }

  /** `full_clean()` followed by `save()`: a rejected image leaves the table
      alone; an accepted one is stored as a row under its pk, replacing the
      row with that pk or appended after the others, and every other row is
      kept. */
  function SaveImage(table: seq<ImageRow>, img: ImageCandidate): (r: Result<seq<ImageRow>, string>)
    ensures r.Err? <==> img.mime.None? || ImageClean(table, img).Some?
    ensures img.mime.None? ==> r == Err(ImageBlank)
    ensures img.mime.Some? && r.Err? ==> r.error == ImageClean(table, img).value
    ensures r.Ok? ==>
      var row := ImageRow(StoredPk(table, img), img.property, img.isPrimary);
      && row in r.value
      && |table| <= |r.value| <= |table| + 1
      && (forall j :: 0 <= j < |table| && table[j].pk != row.pk ==> r.value[j] == table[j])
      && ((forall j :: 0 <= j < |table| ==> table[j].pk != row.pk) <==> r.value == table + [row])
      && ((exists j :: 0 <= j < |table| && table[j].pk == row.pk) ==> |r.value| == |table|)
      && (UniquePks(table) ==> forall j :: 0 <= j < |table| && table[j].pk == row.pk ==> r.value[j] == row)
  {
    match ImageFullClean(table, img)
    case Some(msg) => Err(msg)
    case None =>
      var pk := StoredPk(table, img);
      var row := ImageRow(pk, img.property, img.isPrimary);
      match IndexOfPk(table, pk)
      case Some(i) =>
        assert table[i := row][i] == row;
        assert table[i := row] != table + [row] by {
          assert |table[i := row]| != |table + [row]|;
        }
        Ok(table[i := row])
      case None =>
        assert (table + [row])[|table|] == row;
        Ok(table + [row])
  }

  /** If every image is stored through `clean`, each property keeps at most
      one primary image (and pks stay unique). */
  lemma {:induction false} SaveImagePreservesOnePrimary(table: seq<ImageRow>, img: ImageCandidate)
    requires UniquePks(table) && AtMostOnePrimary(table)
    ensures SaveImage(table, img).Ok? ==>
      UniquePks(SaveImage(table, img).value) && AtMostOnePrimary(SaveImage(table, img).value)
  {
    if ImageFullClean(table, img).None? {
      var pk := StoredPk(table, img);
      var row := ImageRow(pk, img.property, img.isPrimary);
      var t' := SaveImage(table, img).value;
      // No other row of this property is primary when the new row is.
      assert img.isPrimary ==>
        forall k :: (0 <= k < |table| && table[k].property == img.property && table[k].isPrimary) ==> table[k].pk == pk
      by {
        if img.isPrimary {
          forall k | 0 <= k < |table| && table[k].property == img.property && table[k].isPrimary
            ensures table[k].pk == pk
          {
            if table[k].pk != pk {
              PrimaryWitness(table, img, k);
              assert false;
            }
          }
        }
      }
      match IndexOfPk(table, pk)
      case Some(i) =>
        assert t' == table[i := row];
        forall a, b | 0 <= a < b < |t'| ensures t'[a].pk != t'[b].pk {
          if a != i && b != i { assert t'[a] == table[a] && t'[b] == table[b]; }
        }
        forall a, b | 0 <= a < b < |t'| && t'[a].isPrimary && t'[b].isPrimary
          ensures t'[a].property != t'[b].property
        {
          if a == i {
            assert t'[b] == table[b];
          } else if b == i {
            assert t'[a] == table[a];
          }
        }
      case None =>
        assert t' == table + [row];
        forall a, b | 0 <= a < b < |t'| && t'[a].isPrimary && t'[b].isPrimary
          ensures t'[a].property != t'[b].property
        {
          if b == |table| {
          }
        }
    }
  }

  // ---------------------------------------------------------------------
  // Subscriptions and uniqueness constraints

  /** `ServiceSubscription.is_active`: strictly before the expiry instant. */
  predicate IsActive(validUntil: int, now: int)
  {
    validUntil > now
  }

  predicate Distinct<K(==)>(rows: seq<K>)
  {
    forall i, j :: 0 <= i < j < |rows| ==> rows[i] != rows[j]
  }

  /** An insert into a table with a `unique_together` constraint: a key
      already present is refused (the database's integrity error). */
  function InsertUnique<K(==)>(rows: seq<K>, key: K): (r: Result<seq<K>, string>)
    ensures r.Ok? <==> key !in rows
    ensures r.Ok? ==> r.value == rows + [key]
    ensures r.Ok? && Distinct(rows) ==> Distinct(r.value)
  {
    if key in rows then Err("UNIQUE constraint failed") else Ok(rows + [key])
  }

  /** Inserting the same key twice always fails the second time, so at most
      one place-of-interest link, one subscription per service type and one
      interest exist per key. */
  lemma {:induction false} SecondInsertFails<K>(rows: seq<K>, key: K)
    requires InsertUnique(rows, key).Ok?
    ensures InsertUnique(InsertUnique(rows, key).value, key).Err?
  {
    assert InsertUnique(rows, key).value[|rows|] == key;
  }
}
