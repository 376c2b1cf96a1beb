/**
 * Event sequences on the capture screen and the slider, with what the
 * contracts of the two classes let a caller conclude about them.
 */
module Scenarios {
  import opened Optional
  import opened CameraCapture
  import SliderView
  import RealFacts

  /**
   * Two taps on the capture button before the autofocus callback: debounce
   * is still clear at the second tap, so the camera is asked to focus twice
   * and, once both callbacks fire, to take two pictures.
   */
  method TapTwiceBeforeFocus(extraOutput: Path) returns (a: CameraActivity)
    ensures a.trace == [AutoFocus, AutoFocus, TakePicture, TakePicture]
    ensures a.debounce && a.pendingPictures == 2
  {
    a := new CameraActivity(true, false, 0, extraOutput);
    a.CaptureTap();
    a.CaptureTap();
    a.AutoFocusDone(true);
    a.AutoFocusDone(false);
    a.CaptureTap();
  }

  /** A full capture accepted at the first try: the bytes go to EXTRA_OUTPUT and the result is OK. */
  method CaptureAndAccept(extraOutput: Path, data: Bytes) returns (a: CameraActivity)
    ensures a.trace == [AutoFocus, TakePicture, Release]
    ensures a.written == [(extraOutput, data)]
    ensures a.resultCode == ResultOk && a.finished && !a.crashed
  {
    a := new CameraActivity(true, true, 30, extraOutput);
    a.CaptureTap();
    a.AutoFocusDone(true);
    a.PictureTaken(data);
    a.AcceptTap(Written);
    a.Pause();
  }

  /** A failed write still reports RESULT_OK. */
  method AcceptDespiteFailedWrite(extraOutput: Path, data: Bytes) returns (a: CameraActivity)
    ensures a.written == []
    ensures a.resultCode == ResultOk && a.finished
  {
    a := new CameraActivity(true, false, 0, extraOutput);
    a.CaptureTap();
    a.AutoFocusDone(false);
    a.PictureTaken(data);
    a.AcceptTap(FileNotFound);
  }

  /** Retake and capture again: the second picture replaces the first as the one written. */
  method RetakeThenAccept(extraOutput: Path, first: Bytes, second: Bytes) returns (a: CameraActivity)
    ensures a.trace == [AutoFocus, TakePicture, StartPreview, AutoFocus, TakePicture]
    ensures a.written == [(extraOutput, second)]
  {
    a := new CameraActivity(true, false, 0, extraOutput);
    a.CaptureTap();
    a.AutoFocusDone(true);
    a.PictureTaken(first);
    a.RetakeTap();
    assert a.image == Some(first) && !a.debounce;
    a.CaptureTap();
    a.AutoFocusDone(true);
    a.PictureTaken(second);
    a.AcceptTap(Written);
  }

  /**
   * Pausing twice releases the camera once. Nothing reopens it, so a capture
   * tap afterwards dereferences the null camera.
   */
  method PauseTwice(extraOutput: Path) returns (a: CameraActivity)
    ensures a.trace == [Release]
    ensures !a.cameraHeld && a.crashed
  {
    a := new CameraActivity(true, true, 10, extraOutput);
    a.Pause();
    a.Pause();
    a.CaptureTap();
  }

  /** Without a camera the screen finishes at once with the default result and commands nothing. */
  method NoCamera(extraOutput: Path) returns (a: CameraActivity)
    ensures a.finished && a.resultCode == ResultCanceled
    ensures a.trace == [] && !a.Installed()
  {
    a := new CameraActivity(false, true, 10, extraOutput);
  }

  /** Zooming in twice from rest with a maximum zoom of 10 sets zoom 1, then 2. */
  method ZoomInTwice(extraOutput: Path) returns (a: CameraActivity)
    ensures a.trace == [SetZoom(1), SetZoom(2)]
    ensures a.zoomSlider != null && a.zoomSlider.notified == [0.1, 0.2]
  {
    a := new CameraActivity(true, true, 10, extraOutput);
    a.ZoomInTap();
    a.ZoomInTap();
    RealFacts.ScaleIsProduct(10, 0.1);
    RealFacts.ScaleIsProduct(10, 0.2);
  }

  /** Setting the same value twice notifies the listener and requests a redraw once. */
  method SetSameTwice(s: SliderView.Slider, v: real)
    requires s.position != v
    modifies s
    ensures s.position == v
    ensures s.notified == old(s.notified) + [v] && s.redraws == old(s.redraws) + 1
  {
    var first := s.SetPosition(v);
    var second := s.SetPosition(v);
    assert first == Some(v) && second == None;
  }

  /** From 0.95 a step up lands on 1, and one more step up is silent. */
  method StepUpToTop(s: SliderView.Slider)
    requires s.position == 0.95
    modifies s
    ensures s.position == 1.0
    ensures s.notified == old(s.notified) + [1.0]
  {
    var first := s.Increment();
    var second := s.Increment();
    assert second == None;
  }
}
