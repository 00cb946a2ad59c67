// The profile photo picker (src/frontend/components/form/image/PhotoField.js):
// which files it accepts, where the crop box starts, how dragging and the
// four resize handles move it, and clearing the image. Coordinates are
// reals, as the pointer and the centring produce; the displayed image size
// (computed with `Math.round` from the natural size) is a parameter.
//
// The top-left handle bounds the new size by the room to the right and
// below the crop's start (`width - x`, `height - y`) although it grows the
// box up and to the left; `TopLeftResizeAsWritten` is that code and
// `TopLeftResize` the bound that keeps the box inside the image.

module PhotoField {
  import opened Js

  function Max(a: real, b: real): real { if a >= b then a else b }
  function Min(a: real, b: real): real { if a <= b then a else b }

  /** The crop box `{ x, y, width, height }`. */
  datatype Crop = Crop(x: real, y: real, width: real, height: real)

  /** The displayed image size `imageDimensions`. */
  datatype Dims = Dims(width: real, height: real)

  /** The box lies inside the image. */
  predicate Inside(c: Crop, d: Dims)
  {
    0.0 <= c.x && 0.0 <= c.y && c.x + c.width <= d.width && c.y + c.height <= d.height
  }

  // ---------------------------------------------------------------------
  // handleImageChange

  const MaxFileSize := 2 * 1024 * 1024
  const TooLarge := "O arquivo é muito grande (máx. 2MB)"
  const BadFormat := "Formato inválido"

  predicate ValidImageType(mime: string)
  {
    mime in ["image/jpeg", "image/png", "image/gif", "image/webp"]
  }

  /** None for an accepted file, else the toast message. */
  function FileRejection(f: FileInfo): (r: Option<string>)
    ensures r.None? <==> ValidImageType(f.mime) && f.size <= MaxFileSize
    ensures r.Some? ==> (ValidImageType(f.mime) ==> r.value == TooLarge) && (!ValidImageType(f.mime) ==> r.value == BadFormat)
  {
    if ValidImageType(f.mime) && f.size <= MaxFileSize then None
    else if ValidImageType(f.mime) then Some(TooLarge)
    else Some(BadFormat)
  }

  // ---------------------------------------------------------------------
  // Geometry

  /** `initializeCrop`'s box: 128 × 128, centred on the displayed image. */
  function InitialCrop(d: Dims): (c: Crop)
    ensures c.width == 128.0 && c.height == 128.0
    ensures c.x + c.width / 2.0 == d.width / 2.0 && c.y + c.height / 2.0 == d.height / 2.0
    ensures d.width >= 128.0 && d.height >= 128.0 ==> Inside(c, d)
  {
    Crop((d.width - 128.0) / 2.0, (d.height - 128.0) / 2.0, 128.0, 128.0)
  }

  /** `Math.max(0, Math.min(v, hi))` */
  function Clamp(v: real, hi: real): (r: real)
    ensures r >= 0.0
    ensures hi >= 0.0 ==> r <= hi
    ensures hi < 0.0 ==> r == 0.0
    ensures 0.0 <= v <= hi ==> r == v
  {
    Max(0.0, Min(v, hi))
  }

  /** The box after a drag that put the box's corner at `(px, py)` (pointer minus the grab offset). */
  function Drag(c: Crop, d: Dims, px: real, py: real): (r: Crop)
    ensures r.width == c.width && r.height == c.height
    ensures r.x == Clamp(px, d.width - c.width) && r.y == Clamp(py, d.height - c.height)
    ensures c.width <= d.width && c.height <= d.height ==> Inside(r, d)
  {
    c.(x := Clamp(px, d.width - c.width), y := Clamp(py, d.height - c.height))
  }

  /** The new side for a handle: at least 128, else the wanted size bounded by two room limits. */
  function HandleSize(wanted: real, roomX: real, roomY: real): (s: real)
    ensures s >= 128.0
    ensures s == 128.0 || (s <= wanted && s <= roomX && s <= roomY)
    ensures Min(wanted, Min(roomX, roomY)) >= 128.0 ==> s == Min(wanted, Min(roomX, roomY))
  {
    Max(128.0, Min(wanted, Min(roomX, roomY)))
  }

  /** The top-left handle as written: `delta = min(dx, dy)`, size bounded by the room right of and below the start. */
  function TopLeftResizeAsWritten(start: Crop, d: Dims, dx: real, dy: real): (r: Crop)
    ensures r.width >= 128.0 && r.width == r.height
    ensures r.x + r.width == start.x + start.width && r.y + r.height == start.y + start.width
  {
    var size := HandleSize(start.width - Min(dx, dy), d.width - start.x, d.height - start.y);
    Crop(start.x + (start.width - size), start.y + (start.width - size), size, size)
  }

  /** Dragging the top-left handle of a box at the image's left edge up and left pushes the box out of the image. */
  lemma TopLeftLeavesImage()
    ensures var start := Crop(0.0, 0.0, 128.0, 128.0);
      var r := TopLeftResizeAsWritten(start, Dims(300.0, 300.0), -100.0, -100.0);
      Inside(start, Dims(300.0, 300.0)) && r.x == -100.0 && !Inside(r, Dims(300.0, 300.0))
  {
  }

  /** The top-left handle bounded by the room left of and above the fixed bottom-right corner. */
  function TopLeftResize(start: Crop, d: Dims, dx: real, dy: real): (r: Crop)
    ensures r.width >= 128.0 && r.width == r.height
    ensures r.x + r.width == start.x + start.width && r.y + r.height == start.y + start.width
  {
    var size := HandleSize(start.width - Min(dx, dy), start.x + start.width, start.y + start.width);
    Crop(start.x + (start.width - size), start.y + (start.width - size), size, size)
  }

  /** The corrected top-left handle keeps a square box that starts inside the image inside it. */
  lemma TopLeftResizeStaysInside(start: Crop, d: Dims, dx: real, dy: real)
    requires Inside(start, d) && start.width == start.height && start.width >= 128.0
    ensures Inside(TopLeftResize(start, d, dx, dy), d)
  {
  }

  /** The top-right handle: `delta = max(dx, dy)`; x and y stay, the box grows right and down. */
  function TopRightResize(start: Crop, d: Dims, dx: real, dy: real): (r: Crop)
    ensures r.width >= 128.0 && r.width == r.height
    ensures r.x == start.x && r.y == start.y
    ensures r.width == 128.0 || (r.x + r.width <= d.width && r.y + r.height <= d.height)
  {
    var size := HandleSize(start.width + Max(dx, dy), d.width - start.x, d.height - start.y);
    start.(width := size, height := size)
  }

  /** The bottom-left handle: `delta = min(dx, dy)`; the bottom-right corner stays where it was. */
  function BottomLeftResize(start: Crop, d: Dims, dx: real, dy: real): (r: Crop)
    ensures r.width >= 128.0 && r.width == r.height
    ensures r.x + r.width == start.x + start.width && r.y + r.height == start.y + start.width
  {
    var size := HandleSize(start.width - Min(dx, dy), d.width - start.x, d.height - start.y);
    Crop(start.x + (start.width - size), start.y + (start.width - size), size, size)
  }

  /** The bottom-right handle: `delta = max(dx, dy)`; x and y stay, and the box fits unless the room is under 128. */
  function BottomRightResize(start: Crop, d: Dims, dx: real, dy: real): (r: Crop)
    ensures r.width >= 128.0 && r.width == r.height
    ensures r.x == start.x && r.y == start.y
    ensures Min(d.width - start.x, d.height - start.y) >= 128.0 ==> r.width <= Min(d.width - start.x, d.height - start.y)
  {
    var size := HandleSize(start.width + Max(dx, dy), d.width - start.x, d.height - start.y);
    start.(width := size, height := size)
  }

  /** A bottom-right resize inside an image with room for the minimum box keeps the box inside. */
  lemma BottomRightStaysInside(start: Crop, d: Dims, dx: real, dy: real)
    requires Inside(start, d) && Min(d.width - start.x, d.height - start.y) >= 128.0
    ensures Inside(BottomRightResize(start, d, dx, dy), d)
  {
  }

  // ---------------------------------------------------------------------
  // The component state

  datatype Handle = TopLeft | TopRight | BottomLeft | BottomRight

  class PhotoFieldState {
    var previewImage: Option<string>
    var formValue: JsVal
    var originalImage: Option<string>
    var showCropModal: bool
    var showOptionsModal: bool
    var crop: Option<Crop>

    constructor(preview: Option<string>, value: JsVal)
      ensures previewImage == preview && formValue == value && originalImage.None?
      ensures !showCropModal && !showOptionsModal && crop.None?
    {
      previewImage, formValue, originalImage := preview, value, None;
      showCropModal, showOptionsModal, crop := false, false, None;
    }

    /**
     * `handleImageChange` with the file's data URL: an accepted file opens
     * the crop modal and closes the options; a rejected one only shows its
     * toast; no file does nothing.
     */
    method HandleImageChange(file: Option<FileInfo>, dataUrl: string) returns (toast: Option<string>)
      modifies this
      ensures file.None? ==> toast.None? && originalImage == old(originalImage) && showCropModal == old(showCropModal) && showOptionsModal == old(showOptionsModal)
      ensures file.Some? ==> toast == FileRejection(file.value)
      ensures file.Some? && toast.None? ==> originalImage == Some(dataUrl) && showCropModal && !showOptionsModal
      ensures file.Some? && toast.Some? ==> originalImage == old(originalImage) && showCropModal == old(showCropModal) && showOptionsModal == old(showOptionsModal)
      ensures previewImage == old(previewImage) && formValue == old(formValue) && crop == old(crop)
    {
      toast := None;
      if file.Some? {
        toast := FileRejection(file.value);
        if toast.None? {
          originalImage, showCropModal, showOptionsModal := Some(dataUrl), true, false;
        }
      }
    }

    /** `initializeCrop` for the displayed size. */
    method InitializeCrop(d: Dims)
      modifies this
      ensures crop == Some(InitialCrop(d))
      ensures previewImage == old(previewImage) && formValue == old(formValue) && originalImage == old(originalImage)
      ensures showCropModal == old(showCropModal) && showOptionsModal == old(showOptionsModal)
    {
      crop := Some(InitialCrop(d));
    }

    /** One pointer move of a drag. */
    method MoveCrop(d: Dims, px: real, py: real)
      requires crop.Some?
      modifies this
      ensures crop == Some(Drag(old(crop).value, d, px, py))
      ensures previewImage == old(previewImage) && formValue == old(formValue) && originalImage == old(originalImage)
      ensures showCropModal == old(showCropModal) && showOptionsModal == old(showOptionsModal)
    {
      crop := Some(Drag(crop.value, d, px, py));
    }

    /** One pointer move of a resize from the box `start` held when the handle was grabbed. */
    method ResizeCrop(h: Handle, start: Crop, d: Dims, dx: real, dy: real)
      modifies this
      ensures crop.Some? && crop.value.width >= 128.0 && crop.value.width == crop.value.height
      ensures crop == Some(match h
        case TopLeft => TopLeftResizeAsWritten(start, d, dx, dy)
        case TopRight => TopRightResize(start, d, dx, dy)
        case BottomLeft => BottomLeftResize(start, d, dx, dy)
        case BottomRight => BottomRightResize(start, d, dx, dy))
      ensures previewImage == old(previewImage) && formValue == old(formValue) && originalImage == old(originalImage)
      ensures showCropModal == old(showCropModal) && showOptionsModal == old(showOptionsModal)
    {
      match h {
        case TopLeft => crop := Some(TopLeftResizeAsWritten(start, d, dx, dy));
        case TopRight => crop := Some(TopRightResize(start, d, dx, dy));
        case BottomLeft => crop := Some(BottomLeftResize(start, d, dx, dy));
        case BottomRight => crop := Some(BottomRightResize(start, d, dx, dy));
      }
    }

    /** `handleClearImage`: no preview and a null form value (the re-validation by `trigger` is not modelled). */
    method HandleClearImage()
      modifies this
      ensures previewImage.None? && formValue == Null
      ensures originalImage == old(originalImage) && crop == old(crop)
      ensures showCropModal == old(showCropModal) && showOptionsModal == old(showOptionsModal)
    {
      previewImage := None;
      formValue := Null;
    }
  }
}
