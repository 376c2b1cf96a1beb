# Capture screen and zoom slider, modelled in Dafny

This project models the two pieces of logic in the Cordova camera plugin's
custom capture screen:

- **The zoom slider** (`Slider`): a position on one axis that starts at 0,
  moves by touch or by steps of 0.1, and is reported to one listener on each
  change, never on a set to the same value. It also covers the integer
  geometry of the background track and the indicator that `onDraw` computes.
- **The capture screen** (`CameraActivity`): the state machine behind the
  capture, autofocus, picture, retake, cancel, accept, pause and zoom
  handlers. It tracks the `debounce` flag, the held camera, which of the two
  views is visible, the captured bytes, the destination, the result code and
  whether the activity has finished.

Files:

- `optional.dfy`: `Option`, which stands for Java's nullable references.
- `java_numerics.dfy`: Java's truncating `int / 2` and `(int)` cast of a `double`.
- `real_facts.dfy`: the product of an integer length and a real fraction,
  written as repeated addition and proved equal to the product. Proofs about
  it then need only linear arithmetic. The module also holds the facts about
  quotients that the touch mapping needs.
- `slider.dfy` (module `SliderView`): the `Slider` class and the pure functions
  for its updates and its geometry. It also has the lemma that no sequence of
  user inputs takes the position out of [0, 1].
- `camera_activity.dfy` (module `CameraCapture`): the `CameraActivity` class
  and the zoom mapping.
- `scenarios.dfy` (module `Scenarios`): event sequences on both classes, with
  what their contracts let a caller conclude.

The camera is abstract. Every command the activity issues (autofocus,
takePicture, startPreview, setZoom with setParameters, release) is appended
to a ghost `trace`. Callbacks are methods that the environment may call only
while a matching request is outstanding and the camera is held. The
environment chooses four inputs: whether the camera opens, zoom support, the
maximum zoom and how the file write ends. In Java, dereferencing a null field
throws an uncaught NullPointerException that ends the activity. The model
records this as `crashed`, and no handler runs after it. The slider reports to
its listener by returning the value it delivered (`Option<real>`). The
activity's zoom handlers pass that value on to the zoom listener.

## Behaviour the model follows

- `setPosition` stores its argument unclamped. Only `increment`, `decrement`
  and the touch listener keep the position in [0, 1].
- `debounce` is set by the autofocus callback, not by the tap. Each tap before
  the first callback requests autofocus again, and each of those callbacks
  takes a picture (`Scenarios.TapTwiceBeforeFocus`).
- Without a camera, `onCreate` calls `finish()` without `setResult`. The
  caller therefore gets the default RESULT_CANCELED, not a separate failure
  code.
- Accept does not release the camera. Only `onPause` does, and only if the
  camera is still held.
- Nothing reopens the camera after `onPause`. After that, a capture tap with
  `debounce` clear, a retake or a supported zoom change dereferences the null
  camera; a capture tap with `debounce` set still does nothing.

## Model

| member | source | states |
|---|---|---|
| JavaNumerics.HalfTowardZero | src/org/apache/cordova/camera/Slider.java:44-47 | Java `n / 2`: the remainder `n - 2h` is 0 or 1 for non-negative n and 0 or -1 for negative n (rounding toward zero) |
| JavaNumerics.TruncToInt | src/org/apache/cordova/camera/Slider.java:154 | Java `(int)` cast: the result is within 1 of x, on the side of zero |
| SliderView.Slider.constructor | src/org/apache/cordova/camera/Slider.java:117-119 | initSliderView: position 0, orientation as given, no notification and no redraw yet |
| SliderView.Slider.SetPosition | src/org/apache/cordova/camera/Slider.java:72-78 | the position becomes exactly the argument, unclamped; an equal value changes nothing and notifies nobody; a different value causes one redraw and one notification, carrying that value |
| SliderView.IncrementTarget | src/org/apache/cordova/camera/Slider.java:80-87 | the stepped-up position is min(p + 0.1, 1): at most 1 and equal to one of the two; it is 1 from 0.9 on (so 0.95 gives 1 and 1 stays 1), and it is non-negative for p >= -0.1 |
| SliderView.DecrementTarget | src/org/apache/cordova/camera/Slider.java:89-96 | the stepped-down position is max(p - 0.1, 0): at least 0 and equal to one of the two; it is 0 up to 0.1 (so 0 stays 0), and it is at most 1 for p <= 1.1 |
| SliderView.Slider.Increment | src/org/apache/cordova/camera/Slider.java:80-87 | the position becomes IncrementTarget of the old one; the listener hears it exactly when it moved, so a step at 1 is silent |
| SliderView.Slider.Decrement | src/org/apache/cordova/camera/Slider.java:89-96 | the position becomes DecrementTarget of the old one; the listener hears it exactly when it moved, so a step at 0 is silent |
| SliderView.StepRoundTrip | src/org/apache/cordova/camera/Slider.java:80-96 | stepping up then down returns to p for p in [0, 0.9]; stepping down then up returns to p for p in [0.1, 1]; above 0.9 the up-step is absorbed and the round trip ends at 0.9 |
| SliderView.TouchPosition | src/org/apache/cordova/camera/Slider.java:98-115 | for a rect of positive extent along the axis the result is in [0, 1]. Vertical: a touch at or below the bottom gives 0, at or above the top gives 1, and in between gives the exact fraction (bottom - y) / height. Horizontal: the same with (x - left) / width |
| SliderView.Slider.Touch | src/org/apache/cordova/camera/Slider.java:98-115 | the position becomes TouchPosition of the touch, which is in [0, 1]; the listener hears it exactly when it moved |
| SliderView.Apply | src/org/apache/cordova/camera/Slider.java:80-115 | a step up, a step down or a touch keeps a position in [0, 1] inside it; a touch lands in [0, 1] from anywhere |
| SliderView.RunStaysInUnit | src/org/apache/cordova/camera/Slider.java:80-115 | from any position in [0, 1], every sequence of steps and touches ends in [0, 1] (induction over the sequence) |
| SliderView.FromRestStaysInUnit | src/org/apache/cordova/camera/Slider.java:117-119 | from the initial position 0, every sequence of steps and touches ends in [0, 1] |
| SliderView.CenterAround | src/org/apache/cordova/camera/Slider.java:43-51 | the bounds are exactly w by h; for non-negative sizes their centre, as Rect rounds it, is (x, y); a size of -1, 0 or 1 puts the edge on x or y |
| SliderView.HalfThickness | src/org/apache/cordova/camera/Slider.java:131-134 | the track's half-thickness is never 0: it is 5 when the intrinsic size halves to 0 (sizes -1, 0 and 1), and otherwise half the size rounded toward zero |
| SliderView.TrackBounds | src/org/apache/cordova/camera/Slider.java:129-151 | the track is inset 10 from both ends of the axis, centred on the rect's centre line, and twice the half-thickness across |
| SliderView.IndicatorX | src/org/apache/cordova/camera/Slider.java:153-155 | the horizontal indicator is at left + 24 at position 0 and at right - 24 at position 1; for a rect at least 48 wide and positions in [0, 1] it stays between the two |
| SliderView.IndicatorY | src/org/apache/cordova/camera/Slider.java:138-141 | the vertical indicator is at bottom - 24 at position 0 and at top + 24 at position 1; for a rect at least 48 tall and positions in [0, 1] it stays between the two |
| SliderView.IndicatorXMonotone | src/org/apache/cordova/camera/Slider.java:153-155 | for a rect at least 48 wide, a higher position never moves the horizontal indicator left |
| SliderView.IndicatorYAntitone | src/org/apache/cordova/camera/Slider.java:138-141 | for a rect at least 48 tall, a higher position never moves the vertical indicator down |
| SliderView.IndicatorXIsProduct | src/org/apache/cordova/camera/Slider.java:153-155 | the horizontal indicator equals the Java expression `(int)((width - 48) * pos) + left + 24` with the product taken directly |
| SliderView.IndicatorYIsProduct | src/org/apache/cordova/camera/Slider.java:138-141 | the vertical indicator equals the Java expression `(int)(bottom - (height - 48) * pos) - 24` with the product taken directly |
| SliderView.ThumbBounds | src/org/apache/cordova/camera/Slider.java:126-158 | the indicator keeps its intrinsic size; it is centred on the rect's centre line and, along the axis, at IndicatorX or IndicatorY of the position |
| CameraCapture.ZoomLevel | src/org/apache/cordova/camera/CameraActivity.java:77 | `(int)(value * limit)`: value 0 gives zoom 0, value 1 gives the limit, and values in [0, 1] give levels in [0, limit] |
| CameraCapture.ZoomLevelMonotone | src/org/apache/cordova/camera/CameraActivity.java:77 | a higher slider value never gives a lower zoom level |
| CameraCapture.ZoomLevelIsProduct | src/org/apache/cordova/camera/CameraActivity.java:77 | the zoom level equals the Java expression `(int)(value * limit)` with the product taken directly |
| CameraCapture.SliderZoomInRange | src/org/apache/cordova/camera/CameraActivity.java:143-164 | whatever steps and touches the user applies to the vertical slider from rest, the zoom level it maps to is in [0, limit] |
| CameraCapture.CameraActivity.constructor | src/org/apache/cordova/camera/CameraActivity.java:100-145 | onCreate. The review view starts hidden, nothing is commanded and the result is the default RESULT_CANCELED. Without a camera the activity is finished and installs no handler. With one, it holds the camera, its zoom listener captures the maximum zoom once (0 without zoom support), and the slider rests at 0 |
| CameraCapture.CameraActivity.CaptureTap | src/org/apache/cordova/camera/CameraActivity.java:134-139 | with debounce set, nothing happens. With debounce clear, exactly one AutoFocus is commanded and one more callback is outstanding; debounce itself is unchanged. With debounce clear and no camera held, the tap crashes |
| CameraCapture.CameraActivity.AutoFocusDone | src/org/apache/cordova/camera/CameraActivity.java:51-57 | for either success flag, exactly one TakePicture is commanded, debounce becomes set, and one picture callback becomes outstanding |
| CameraCapture.CameraActivity.PictureTaken | src/org/apache/cordova/camera/CameraActivity.java:228-240 | the image becomes the received bytes, the review view shows in place of the camera view, and the destination becomes EXTRA_OUTPUT; nothing is commanded |
| CameraCapture.CameraActivity.RetakeTap | src/org/apache/cordova/camera/CameraActivity.java:178-183 | after a picture: the review view hides, the camera view shows, debounce clears and one StartPreview is commanded (or the tap crashes if the camera was released); the image and destination are kept |
| CameraCapture.CameraActivity.CancelTap | src/org/apache/cordova/camera/CameraActivity.java:190-193 | the result is RESULT_CANCELED and the activity finishes; nothing is written or commanded |
| CameraCapture.CameraActivity.AcceptTap | src/org/apache/cordova/camera/CameraActivity.java:245-264 | after a picture the result is RESULT_OK and the activity finishes, whether the write succeeded or failed. Only a successful write records the image bytes at the destination. Before any picture the tap crashes |
| CameraCapture.CameraActivity.Pause | src/org/apache/cordova/camera/CameraActivity.java:200-205 | a held camera is released exactly once and forgotten, and outstanding callbacks stop; a second pause commands nothing. The class invariant keeps Release the last command ever issued |
| CameraCapture.CameraActivity.OnPositionChange | src/org/apache/cordova/camera/CameraActivity.java:73-81 | with zoom support, exactly one SetZoom at ZoomLevel(value, captured limit) is commanded (a crash if the camera was released); without it, nothing is commanded |
| CameraCapture.CameraActivity.Deliver | src/org/apache/cordova/camera/CameraActivity.java:144-145 | the zoom listener runs only when the slider actually notified it, and then with the notified value |
| CameraCapture.CameraActivity.ZoomInTap | src/org/apache/cordova/camera/CameraActivity.java:156-164 | the slider steps up. If it did not move, nothing is notified or commanded. If it moved, the listener hears the new position once. Every command issued is a SetZoom within [0, limit] |
| CameraCapture.CameraActivity.ZoomOutTap | src/org/apache/cordova/camera/CameraActivity.java:147-155 | the slider steps down, with the same notification and zoom guarantees as ZoomInTap |
| CameraCapture.CameraActivity.SliderTouch | src/org/apache/cordova/camera/CameraActivity.java:143-145 | the slider moves to the touch's projection, with the same notification and zoom guarantees as ZoomInTap |
| Scenarios.TapTwiceBeforeFocus | src/org/apache/cordova/camera/CameraActivity.java:134-139 | two taps before the autofocus callback command two autofocus requests and, after both callbacks, two pictures; a later tap is ignored |
| Scenarios.CaptureAndAccept | src/org/apache/cordova/camera/CameraActivity.java:245-264 | tap, focus, picture, accept and pause write the captured bytes to EXTRA_OUTPUT, finish with RESULT_OK and release the camera last |
| Scenarios.AcceptDespiteFailedWrite | src/org/apache/cordova/camera/CameraActivity.java:249-262 | a write that fails with FileNotFoundException still finishes with RESULT_OK |
| Scenarios.RetakeThenAccept | src/org/apache/cordova/camera/CameraActivity.java:178-183 | after a retake a new capture is possible, and accepting writes the second picture |
| Scenarios.PauseTwice | src/org/apache/cordova/camera/CameraActivity.java:200-205 | two pauses release the camera once; a capture tap afterwards crashes |
| Scenarios.NoCamera | src/org/apache/cordova/camera/CameraActivity.java:106-114 | without a camera the activity finishes with RESULT_CANCELED, installs no handler and commands nothing |
| Scenarios.ZoomInTwice | src/org/apache/cordova/camera/CameraActivity.java:156-164 | with a maximum zoom of 10, two zoom-in taps from rest set zoom 1 and then 2, and notify 0.1 and 0.2 |
| Scenarios.SetSameTwice | src/org/apache/cordova/camera/Slider.java:72-78 | setting a new value twice notifies once and redraws once |
| Scenarios.StepUpToTop | src/org/apache/cordova/camera/Slider.java:80-87 | from 0.95 a step up lands on 1 with one notification, and the next step up is silent |

## Left out

- SliderView.IncrementTarget, SliderView.Slider.Increment, SliderView.DecrementTarget, SliderView.Slider.Decrement, CameraCapture.ZoomLevel: positions and touch coordinates are `real`, not Java `double`, and the difference is visible to users. In Java, 0.1 is inexact, so ten `increment()` calls from 0 leave the position at 0.9999999999999999 rather than 1. The eleventh call is the one that reaches 1 and notifies. In the model the tenth step reaches 1 and the eleventh is silent. The `(int)` cast in the zoom listener turns that rounding error into a whole zoom level. With a maximum zoom of 10, eight taps give level 7 in Java and 8 in the model, and ten taps give 9 in Java and 10 in the model. Decrement has the same problem. Ten `decrement()` calls from 1 leave a Java slider at 1.3877787807814457e-16 rather than 0, so the eleventh call reaches 0, notifies and commands `SetZoom(0)` a second time. In the model the tenth step reaches 0 and the eleventh does nothing. The round trips in `SliderView.StepRoundTrip` likewise hold exactly only on reals.
- SliderView.TouchPosition: requires a drawing rect of positive extent along the axis. With a zero extent, Java divides by zero and gets NaN or an infinity, and that path is not modelled.
- Java's 32-bit `int` overflow in the geometry and `Rect.centerX`, and the saturation of the `(int)` cast of very large doubles, are not modelled: integers are unbounded.
- `setSliderBackground`, `setPositionListener` and `onMeasure` are left out because they are view plumbing. The listener is assumed registered, as `onCreate` registers it. A `setPosition` with no listener, which throws in Java, is not modelled.
- Canvas drawing, `Drawable.draw`, layout inflation, window flags, system-UI visibility, button backgrounds and `mPreview.setSystemUiVisibility` in `onPause` are left out as platform UI work. Only the bounds computed for the drawables are modelled.
- The `Preview` class is not part of this model. The preview it starts at creation is therefore not in the trace; only the `startPreview` issued by retake is.
- Camera hardware behaviour is not modelled, for example refusing a `takePicture` while another capture is still running. Commands are only recorded. Callbacks arrive one at a time, only while the camera is held, and only for an outstanding request. A release cancels the outstanding callbacks.
- The file write is an input outcome. Only a complete write is recorded in `written`. The partial content an IOException may leave behind is not modelled.
- `previewImage` is never assigned in the source, so its recycle in `saveAndExit` never runs and is left out.
- Logging and the display-rotation read in the picture callback are left out because they have no effect on state.
- Threading is left out: each handler and callback is one atomic step.
- CameraCapture.CameraActivity.Pause: requires that `onCreate` installed the handlers. An activity that calls `finish()` inside `onCreate` never reaches `onPause` on Android.
- The intent's EXTRA_OUTPUT is always a path here. Two cases are not modelled. An extras bundle without an EXTRA_OUTPUT key makes `fileUri` null, and accept then crashes. An intent with no extras bundle at all crashes earlier, in the picture callback (CameraActivity.java:239).
- Handlers may still run after `finish()`, as in Java, but not after a crash.
