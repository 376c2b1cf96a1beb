/**
 * The capture screen (CameraActivity.java): a live preview with a capture
 * button and a zoom slider, then a review view with accept, retake and
 * cancel.
 *
 * The camera is not modelled: every command the activity gives it is
 * appended to the ghost `trace`, and its callbacks (autofocus done, picture
 * taken) are methods the environment may call once a matching request is
 * outstanding. Whether the camera opens, whether it supports zoom, its
 * maximum zoom and the outcome of the file write are inputs. A dereference
 * of a null field, which in Java throws an uncaught NullPointerException and
 * ends the activity, is modelled by `crashed`; no handler runs after it.
 */
module CameraCapture {
  import opened Optional
  import opened JavaNumerics
  import opened RealFacts
  import SliderView

  /** Activity.RESULT_OK. */
  const ResultOk: int := -1
  /** Activity.RESULT_CANCELED, also the result of an activity that never sets one. */
  const ResultCanceled: int := 0

  type Bytes = seq<bv8>
  /** The path of the URI passed as MediaStore.EXTRA_OUTPUT. */
  type Path = string

  /** The calls the activity makes on android.hardware.Camera. */
  datatype CameraCommand =
    | AutoFocus
    | TakePicture
    | StartPreview
    | SetZoom(level: int)   // params.setZoom(level) then setParameters(params)
    | Release

  /** How saveAndExit's write ended: written, FileNotFoundException, or IOException. */
  datatype WriteOutcome = Written | FileNotFound | WriteFailed

  /** ZoomListener as built in onCreate: the camera's zoom support and the limit captured then. */
  datatype ZoomListener = ZoomListener(supported: bool, limit: int)

  /**
   * The zoom level ZoomListener sets for a slider value: `(int)(value * limit)`.
   * The ends of the slider map to no zoom and to the limit, and the slider's
   * range maps into the camera's range.
   */
  function ZoomLevel(value: real, limit: int): (level: int)
    ensures value == 0.0 ==> level == 0
    ensures value == 1.0 ==> level == limit
    ensures 0.0 <= value <= 1.0 && 0 <= limit ==> 0 <= level <= limit
  {
    var level := TruncToInt(Scale(limit, value));
    ScaleEnds(limit);
    assert 0.0 <= value <= 1.0 && 0 <= limit ==> 0 <= level <= limit by {
      if 0.0 <= value <= 1.0 && 0 <= limit {
        ScaledWithin(limit, value);
        TruncBetween(Scale(limit, value), 0, limit);
      }
    }
    level
  }

  /** ZoomLevel is the Java expression `(int)(value * limit)`. */
  lemma ZoomLevelIsProduct(value: real, limit: int)
    ensures ZoomLevel(value, limit) == TruncToInt(limit as real * value)
  {
    ScaleIsProduct(limit, value);
  }

  /** A higher slider value never gives a lower zoom level. */
  lemma ZoomLevelMonotone(v: real, w: real, limit: int)
    requires 0 <= limit && v <= w
    ensures ZoomLevel(v, limit) <= ZoomLevel(w, limit)
  {
    ScaleMonotone(limit, v, w);
    TruncMonotone(Scale(limit, v), Scale(limit, w));
  }

  /** Whatever the user does to the slider from its initial position, the zoom level stays in [0, limit]. */
  lemma SliderZoomInRange(inputs: seq<SliderView.SliderInput>, limit: int)
    requires SliderView.Admissible(true, inputs)
    requires 0 <= limit
    ensures 0 <= ZoomLevel(SliderView.Run(true, 0.0, inputs), limit) <= limit
  {
    SliderView.FromRestStaysInUnit(true, inputs);
  }

  class CameraActivity {
    /** The destination the caller passed as MediaStore.EXTRA_OUTPUT. */
    const extraOutput: Path
    /** mZoom, built once in onCreate; None when no camera could be opened. */
    const zoom: Option<ZoomListener>
    /** zoomSlider, bound in onCreate (vertical, as both Slider constructors make it); null without a camera. */
    const zoomSlider: SliderView.Slider?

    /** mCamera != null. */
    var cameraHeld: bool
    var debounce: bool
    /** previewView: the captured still with accept, retake and cancel. */
    var previewViewVisible: bool
    /** cameraView: the live preview with the capture button and zoom controls. */
    var cameraViewVisible: bool
    var image: Option<Bytes>
    var fileUri: Option<Path>
    var resultCode: int
    var finished: bool
    var crashed: bool

    /** Every command given to the camera, in order. */
    ghost var trace: seq<CameraCommand>
    /** Autofocus requests whose callback has not yet fired. */
    ghost var pendingFocus: nat
    /** Picture requests whose callback has not yet fired. */
    ghost var pendingPictures: nat
    /** The files saveAndExit wrote completely, in order. */
    ghost var written: seq<(Path, Bytes)>

    /** The handlers exist: onCreate opened a camera. */
    predicate Installed()
      reads this
    {
      zoom.Some?
    }

    ghost predicate Valid()
      reads this, zoomSlider
    {
      && (Installed() <==> zoomSlider != null)
      && (Installed() ==> 0 <= zoom.value.limit)
      && (zoomSlider != null ==> zoomSlider.vertical && 0.0 <= zoomSlider.position <= 1.0)
      && (!Installed() ==> finished && !cameraHeld && trace == [] && image.None? && !previewViewVisible)
      && cameraViewVisible == !previewViewVisible
      && (previewViewVisible ==> image.Some?)
      && (image.Some? <==> fileUri.Some?)
      && (fileUri.Some? ==> fileUri.value == extraOutput)
      // the camera is released at most once, and nothing is commanded after that
      && (cameraHeld <==> Installed() && Release !in trace)
      && (forall i :: 0 <= i < |trace| - 1 ==> trace[i] != Release)
      && (!cameraHeld ==> pendingFocus == 0 && pendingPictures == 0)
    }

    /**
     * onCreate. The review view starts hidden. When the camera cannot be
     * opened the activity finishes at once, with the default result and no
     * handler installed; otherwise it holds the camera, a zoom listener
     * whose limit is the camera's maximum zoom (0 without zoom support), and
     * a slider at position 0.
     */
    constructor (cameraOpens: bool, zoomSupported: bool, maxZoom: int, extraOutput: Path)
      requires zoomSupported ==> 0 <= maxZoom
      ensures Valid()
      ensures this.extraOutput == extraOutput
      ensures cameraHeld == cameraOpens && finished == !cameraOpens
      ensures cameraOpens ==> zoom == Some(ZoomListener(zoomSupported, if zoomSupported then maxZoom else 0))
      ensures cameraOpens ==> fresh(zoomSlider) && zoomSlider.position == 0.0 && zoomSlider.notified == [] && zoomSlider.redraws == 0
      ensures !cameraOpens ==> zoom == None && zoomSlider == null
      ensures !debounce && !previewViewVisible && cameraViewVisible && image == None && fileUri == None
      ensures resultCode == ResultCanceled && !crashed
      ensures trace == [] && pendingFocus == 0 && pendingPictures == 0 && written == []
    {
      this.extraOutput := extraOutput;
      if cameraOpens {
        zoom := Some(ZoomListener(zoomSupported, if zoomSupported then maxZoom else 0));
        zoomSlider := new SliderView.Slider(true);
      } else {
        zoom := None;
        zoomSlider := null;
      }
      cameraHeld := cameraOpens;
      finished := !cameraOpens;
      debounce := false;
      previewViewVisible := false;
      cameraViewVisible := true;
      image := None;
      fileUri := None;
      resultCode := ResultCanceled;
      crashed := false;
      trace := [];
      pendingFocus := 0;
      pendingPictures := 0;
      written := [];
    }

    /**
     * The capture button: asks for autofocus unless debounce is set; a held
     * camera is required, so a tap after onPause crashes. debounce is not
     * set here, so every tap before the first callback asks again.
     */
    method CaptureTap()
      requires Valid() && Installed() && !crashed
      modifies this`trace, this`pendingFocus, this`crashed
      ensures Valid()
      ensures debounce ==> trace == old(trace) && pendingFocus == old(pendingFocus) && !crashed
      ensures !debounce && cameraHeld ==>
                trace == old(trace) + [AutoFocus] && pendingFocus == old(pendingFocus) + 1 && !crashed
      ensures !debounce && !cameraHeld ==> crashed && trace == old(trace)
    {
      if !debounce {
        if cameraHeld {
          trace := trace + [AutoFocus];
          pendingFocus := pendingFocus + 1;
        } else {
          crashed := true;
        }
      }
    }

    /** AFCallback.onAutoFocus: takes one picture and sets debounce, whether focusing succeeded or not. */
    method AutoFocusDone(success: bool)
      requires Valid() && Installed() && !crashed
      requires 0 < pendingFocus
      modifies this`trace, this`debounce, this`pendingFocus, this`pendingPictures
      ensures Valid()
      ensures trace == old(trace) + [TakePicture] && debounce
      ensures pendingFocus == old(pendingFocus) - 1 && pendingPictures == old(pendingPictures) + 1
    {
      trace := trace + [TakePicture];
      pendingPictures := pendingPictures + 1;
      pendingFocus := pendingFocus - 1;
      debounce := true;
    }

    /**
     * mPicture.onPictureTaken: keeps the bytes, shows the review view in
     * place of the camera view and records EXTRA_OUTPUT as the destination.
     */
    method PictureTaken(data: Bytes)
      requires Valid() && Installed() && !crashed
      requires 0 < pendingPictures
      modifies this`image, this`previewViewVisible, this`cameraViewVisible, this`fileUri, this`pendingPictures
      ensures Valid()
      ensures image == Some(data) && fileUri == Some(extraOutput)
      ensures previewViewVisible && !cameraViewVisible
      ensures pendingPictures == old(pendingPictures) - 1
    {
      image := Some(data);
      previewViewVisible := true;
      cameraViewVisible := false;
      fileUri := Some(extraOutput);
      pendingPictures := pendingPictures - 1;
    }

    /**
     * The retake button: hides the review view, shows the camera view,
     * clears debounce and restarts the preview; the image and the
     * destination are kept. cameraView is looked up only when a picture
     * arrives, so a retake before any picture crashes after hiding the
     * review view, and one after onPause crashes at startPreview.
     */
    method RetakeTap()
      requires Valid() && Installed() && !crashed
      modifies this`previewViewVisible, this`cameraViewVisible, this`debounce, this`trace, this`crashed
      ensures Valid()
      ensures !previewViewVisible && cameraViewVisible
      ensures image.None? ==> crashed && debounce == old(debounce) && trace == old(trace)
      ensures image.Some? ==> !debounce
      ensures image.Some? && cameraHeld ==> trace == old(trace) + [StartPreview] && !crashed
      ensures image.Some? && !cameraHeld ==> trace == old(trace) && crashed
    {
      previewViewVisible := false;
      if image.None? {
        crashed := true;
      } else {
        cameraViewVisible := true;
        debounce := false;
        if cameraHeld {
          trace := trace + [StartPreview];
        } else {
          crashed := true;
        }
      }
    }

    /** The cancel button: RESULT_CANCELED and finish, writing nothing. */
    method CancelTap()
      requires Valid() && Installed() && !crashed
      modifies this`resultCode, this`finished
      ensures Valid()
      ensures resultCode == ResultCanceled && finished
    {
      resultCode := ResultCanceled;
      finished := true;
    }

    /**
     * The accept button (saveAndExit): writes the image to the destination
     * and finishes with RESULT_OK however the write ends. With no picture yet
     * fileUri is null and the call crashes.
     */
    method AcceptTap(outcome: WriteOutcome)
      requires Valid() && Installed() && !crashed
      modifies this`resultCode, this`finished, this`written, this`crashed
      ensures Valid()
      ensures fileUri.None? ==>
                crashed && resultCode == old(resultCode) && finished == old(finished) && written == old(written)
      ensures fileUri.Some? ==> !crashed && resultCode == ResultOk && finished
      ensures fileUri.Some? && outcome == Written ==> written == old(written) + [(fileUri.value, image.value)]
      ensures fileUri.Some? && outcome != Written ==> written == old(written)
    {
      if fileUri.None? {
        crashed := true;
        return;
      }
      if outcome == Written {
        written := written + [(fileUri.value, image.value)];
      }
      resultCode := ResultOk;
      finished := true;
    }

    /**
     * onPause: releases a held camera and forgets it; outstanding callbacks
     * are not delivered any more. A second pause gives no command.
     */
    method Pause()
      requires Valid() && Installed() && !crashed
      modifies this`cameraHeld, this`trace, this`pendingFocus, this`pendingPictures
      ensures Valid() && !cameraHeld
      ensures old(cameraHeld) ==> trace == old(trace) + [Release]
      ensures !old(cameraHeld) ==> trace == old(trace)
      ensures pendingFocus == 0 && pendingPictures == 0
    {
      if cameraHeld {
        trace := trace + [Release];
        cameraHeld := false;
        pendingFocus := 0;
        pendingPictures := 0;
      }
    }

    /** What ZoomListener.onPositionChange(value) did to the trace and to `crashed`. */
    ghost predicate ZoomedTo(before: seq<CameraCommand>, value: real)
      reads this
      requires Installed()
    {
      if !zoom.value.supported then trace == before && !crashed
      else if cameraHeld then trace == before + [SetZoom(ZoomLevel(value, zoom.value.limit))] && !crashed
      else trace == before && crashed
    }

    /**
     * ZoomListener.onPositionChange: with zoom support, sets the zoom to the
     * slider value scaled to the captured limit (crashing if the camera was
     * released); without it, does nothing.
     */
    method OnPositionChange(value: real)
      requires Valid() && Installed() && !crashed
      modifies this`trace, this`crashed
      ensures Valid()
      ensures ZoomedTo(old(trace), value)
    {
      if zoom.value.supported {
        if cameraHeld {
          trace := trace + [SetZoom(ZoomLevel(value, zoom.value.limit))];
        } else {
          crashed := true;
        }
      }
    }

    /** A slider notification `heard` delivered to the zoom listener. */
    method Deliver(heard: Option<real>)
      requires Valid() && Installed() && !crashed
      modifies this`trace, this`crashed
      ensures Valid()
      ensures heard.None? ==> trace == old(trace) && !crashed
      ensures heard.Some? ==> ZoomedTo(old(trace), heard.value)
    {
      if heard.Some? {
        OnPositionChange(heard.value);
      }
    }

    /**
     * The zoom-in button: steps the slider up; when the position moved, the
     * zoom listener hears the new position, and the only command that can
     * follow is one zoom level within [0, limit].
     */
    method ZoomInTap()
      requires Valid() && Installed() && !crashed
      modifies zoomSlider, this`trace, this`crashed
      ensures Valid()
      ensures zoomSlider.position == SliderView.IncrementTarget(old(zoomSlider.position))
      ensures zoomSlider.position == old(zoomSlider.position) ==>
                trace == old(trace) && !crashed && zoomSlider.notified == old(zoomSlider.notified)
      ensures zoomSlider.position != old(zoomSlider.position) ==>
                zoomSlider.notified == old(zoomSlider.notified) + [zoomSlider.position] &&
                ZoomedTo(old(trace), zoomSlider.position)
      ensures zoomSlider.redraws ==
                old(zoomSlider.redraws) + (if zoomSlider.position == old(zoomSlider.position) then 0 else 1)
      ensures forall i :: |old(trace)| <= i < |trace| ==>
                trace[i].SetZoom? && 0 <= trace[i].level <= zoom.value.limit
    {
      var heard := zoomSlider.Increment();
      Deliver(heard);
    }

    /** The zoom-out button: as ZoomInTap, stepping down. */
    method ZoomOutTap()
      requires Valid() && Installed() && !crashed
      modifies zoomSlider, this`trace, this`crashed
      ensures Valid()
      ensures zoomSlider.position == SliderView.DecrementTarget(old(zoomSlider.position))
      ensures zoomSlider.position == old(zoomSlider.position) ==>
                trace == old(trace) && !crashed && zoomSlider.notified == old(zoomSlider.notified)
      ensures zoomSlider.position != old(zoomSlider.position) ==>
                zoomSlider.notified == old(zoomSlider.notified) + [zoomSlider.position] &&
                ZoomedTo(old(trace), zoomSlider.position)
      ensures zoomSlider.redraws ==
                old(zoomSlider.redraws) + (if zoomSlider.position == old(zoomSlider.position) then 0 else 1)
      ensures forall i :: |old(trace)| <= i < |trace| ==>
                trace[i].SetZoom? && 0 <= trace[i].level <= zoom.value.limit
    {
      var heard := zoomSlider.Decrement();
      Deliver(heard);
    }

    /** A touch on the zoom slider at (x, y) within its drawing rect `area`. */
    method SliderTouch(area: SliderView.Rect, x: real, y: real)
      requires Valid() && Installed() && !crashed
      requires 0 < area.Height()
      modifies zoomSlider, this`trace, this`crashed
      ensures Valid()
      ensures zoomSlider.position == SliderView.TouchPosition(true, area, x, y)
      ensures zoomSlider.position == old(zoomSlider.position) ==>
                trace == old(trace) && !crashed && zoomSlider.notified == old(zoomSlider.notified)
      ensures zoomSlider.position != old(zoomSlider.position) ==>
                zoomSlider.notified == old(zoomSlider.notified) + [zoomSlider.position] &&
                ZoomedTo(old(trace), zoomSlider.position)
      ensures zoomSlider.redraws ==
                old(zoomSlider.redraws) + (if zoomSlider.position == old(zoomSlider.position) then 0 else 1)
      ensures forall i :: |old(trace)| <= i < |trace| ==>
                trace[i].SetZoom? && 0 <= trace[i].level <= zoom.value.limit
    {
      var heard := zoomSlider.Touch(area, x, y);
      Deliver(heard);
    }
  }
}
