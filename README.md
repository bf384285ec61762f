# image_cropper: the Android delegate

This project models the Android delegate of the `image_cropper` Flutter
plugin. The delegate takes a `cropImage` method call and translates its
arguments into options for the uCrop cropping library. It then launches the
crop screen, keeps the call's result pending, and answers that result when
the crop screen returns. It also keeps the path of the last cropped image in
the app's shared preferences, so a later `recoverImage` call can still get
it after the process was killed.

Modules:

- `Wrappers`: `Option`, which stands for a Java reference that may be null.
- `AspectRatios`: the preset names and the ratio each one names. Also the
  loop that builds the crop screen's ratio list and its default selection.
- `CropOptions`: the library's options object, written as a class whose
  state is one record of optional settings. It covers the output encoding
  and quality and the UI set-up, plus `StartOptions`, the settings one call
  stores.
- `Delegate`: the shared preferences and the delegate itself.
  - The delegate has one pending result and ghost logs of the replies it
    sent and the crop screens it launched.
  - The invariant `Valid` says two things: the pending result has not been
    answered yet, and no result is answered twice.

Ratios are integer pairs plus a "source image" marker, because every preset
ratio in the source is a whole-number float constant. The library's
constants have the library's values: `REQUEST_CROP` is 69 and
`RESULT_ERROR` is 96. The platform's `RESULT_OK` is -1.

## Model

| member | source | states |
|---|---|---|
| AspectRatios.ParseAspectRatioName | android/src/main/java/vn/hunghd/flutter/plugins/imagecropper/ImageCropperDelegate.java:313-335 | A name gives the source-image entry, titled "ORIGINAL", exactly when it is not one of the seven fixed presets. A fixed preset gives an untitled ratio x:y with 0 < y <= x, and the name of that ratio is the input name. |
| AspectRatios.PresetNameInjective | android/src/main/java/vn/hunghd/flutter/plugins/imagecropper/ImageCropperDelegate.java:314-330 | Different ratios have different preset names, so the name-to-ratio mapping has no ambiguity. |
| AspectRatios.ParsePresetName | android/src/main/java/vn/hunghd/flutter/plugins/imagecropper/ImageCropperDelegate.java:314-330 | Round trip: parsing the name of a fixed ratio x:y gives back exactly x:y, untitled. |
| AspectRatios.DecimalStringInjective | android/src/main/java/vn/hunghd/flutter/plugins/imagecropper/ImageCropperDelegate.java:319-330 | Distinct numbers have distinct numerals in the "<x>x<y>" preset names. |
| AspectRatios.BuildAspectRatioOptions | android/src/main/java/vn/hunghd/flutter/plugins/imagecropper/ImageCropperDelegate.java:89-101 | The preset loop returns exactly the ratio list `PresetRatios` and the default selection `DefaultIndex` of the whole preset list. |
| AspectRatios.PresetRatiosLength | android/src/main/java/vn/hunghd/flutter/plugins/imagecropper/ImageCropperDelegate.java:92-96 | The ratio list has one entry per non-null preset. |
| AspectRatios.PresetRatiosAt | android/src/main/java/vn/hunghd/flutter/plugins/imagecropper/ImageCropperDelegate.java:92-96 | The non-null preset at position i is parsed into the entry whose position is the number of non-null presets before i. Input order is kept. |
| AspectRatios.DefaultIndexIsLastMatch | android/src/main/java/vn/hunghd/flutter/plugins/imagecropper/ImageCropperDelegate.java:91-99 | When a preset equals the initial ratio, the default index is a position in the unfiltered list that holds such a preset. Every matching preset lies at or before it. |
| AspectRatios.DefaultIndexWithoutMatch | android/src/main/java/vn/hunghd/flutter/plugins/imagecropper/ImageCropperDelegate.java:91 | With no preset equal to the initial ratio, the default index is 0. |
| AspectRatios.CountPresentAllSome | android/src/main/java/vn/hunghd/flutter/plugins/imagecropper/ImageCropperDelegate.java:94 | A preset list without nulls keeps all its entries. |
| AspectRatios.DefaultIndexWithoutNulls | android/src/main/java/vn/hunghd/flutter/plugins/imagecropper/ImageCropperDelegate.java:89-102 | When the preset list has no nulls, the default index selects the entry parsed from the initial ratio. |
| AspectRatios.DefaultIndexCanPassList | android/src/main/java/vn/hunghd/flutter/plugins/imagecropper/ImageCropperDelegate.java:92-102 | With presets [null, "square"] and initial ratio "square", the default index is 1 but the list has one entry. The index counts nulls and can point past the list. |
| CropOptions.ChooseOutputFormat | android/src/main/java/vn/hunghd/flutter/plugins/imagecropper/ImageCropperDelegate.java:71-80 | The encoding is PNG exactly when "png" is asked for, otherwise JPEG. The output extension is ".png" exactly for PNG and ".jpg" exactly for JPEG. |
| CropOptions.SetupUiCustomizedOptions | android/src/main/java/vn/hunghd/flutter/plugins/imagecropper/ImageCropperDelegate.java:229-299 | The options object's new settings are `ConfigureUi` of its old settings and the UI arguments. |
| CropOptions.ConfigureUiWithoutArgs | android/src/main/java/vn/hunghd/flutter/plugins/imagecropper/ImageCropperDelegate.java:247-296 | Every setter is guarded by its argument being present, so a set-up without UI arguments changes no setting. |
| CropOptions.StatusBarColorFallback | android/src/main/java/vn/hunghd/flutter/plugins/imagecropper/ImageCropperDelegate.java:253-257 | The status bar colour is the explicit colour if there is one, else the darkened toolbar colour if there is one, else unchanged. |
| CropOptions.FreeStyleIsUnlocked | android/src/main/java/vn/hunghd/flutter/plugins/imagecropper/ImageCropperDelegate.java:291-293 | Free-style cropping is the negation of the aspect-ratio lock when the lock is given, and unchanged otherwise. |
| CropOptions.StartOptionsFormat | android/src/main/java/vn/hunghd/flutter/plugins/imagecropper/ImageCropperDelegate.java:80 | The stored encoding is PNG exactly when "png" is asked for, JPEG exactly otherwise, and always the encoding of the output file. |
| CropOptions.StartOptionsQuality | android/src/main/java/vn/hunghd/flutter/plugins/imagecropper/ImageCropperDelegate.java:81 | The stored quality is the requested one, or 90 when none is given. |
| CropOptions.StartOptionsCircle | android/src/main/java/vn/hunghd/flutter/plugins/imagecropper/ImageCropperDelegate.java:84-86 | The circular dimmed layer is stored, as on, exactly for the "circle" style. |
| CropOptions.StartOptionsUi | android/src/main/java/vn/hunghd/flutter/plugins/imagecropper/ImageCropperDelegate.java:250-293 | In the options a call builds, the status bar colour follows the explicit-then-darkened-toolbar-then-unset fallback, and free-style is the negated lock or unset. |
| CropOptions.StartOptionsRatios | android/src/main/java/vn/hunghd/flutter/plugins/imagecropper/ImageCropperDelegate.java:89-103 | Ratio options are stored exactly when presets are given, with one entry per non-null preset. |
| Delegate.MaxResultSizeNeedsBoth | android/src/main/java/vn/hunghd/flutter/plugins/imagecropper/ImageCropperDelegate.java:106-108 | A maximum result size is applied exactly when both width and height are given, and it is (width, height). |
| Delegate.OutputExtensionMatchesFormat | android/src/main/java/vn/hunghd/flutter/plugins/imagecropper/ImageCropperDelegate.java:71-80 | In a launched crop, the output file is ".png" exactly when the stored encoding is PNG, and ".jpg" exactly when it is JPEG. |
| Delegate.Preferences.PutString | android/src/main/java/vn/hunghd/flutter/plugins/imagecropper/ImageCropperDelegate.java:174-176 | The entry under the key becomes the value. No other entry changes. |
| Delegate.Preferences.Remove | android/src/main/java/vn/hunghd/flutter/plugins/imagecropper/ImageCropperDelegate.java:182-184 | The entry under the key is removed. No other entry changes. |
| Delegate.ImageCropperDelegate.constructor | android/src/main/java/vn/hunghd/flutter/plugins/imagecropper/ImageCropperDelegate.java:45-49 | A new delegate over the app's preferences has no pending result and has sent and launched nothing. |
| Delegate.ImageCropperDelegate.StartCrop | android/src/main/java/vn/hunghd/flutter/plugins/imagecropper/ImageCropperDelegate.java:51-126 | The call's result becomes the pending one, and nothing is answered. With a source path, exactly one crop screen is launched, with the request `CropRequestFor` builds from the call. Without one, nothing is launched. `Valid` is kept. |
| Delegate.ImageCropperDelegate.ClearMethodCallAndResult | android/src/main/java/vn/hunghd/flutter/plugins/imagecropper/ImageCropperDelegate.java:302-304 | The pending slot becomes empty and nothing is sent. |
| Delegate.ImageCropperDelegate.FinishWithSuccess | android/src/main/java/vn/hunghd/flutter/plugins/imagecropper/ImageCropperDelegate.java:215-220 | A pending result gets exactly one success with the path and the slot empties. With nothing pending, nothing is sent. `Valid` is kept. |
| Delegate.ImageCropperDelegate.FinishWithError | android/src/main/java/vn/hunghd/flutter/plugins/imagecropper/ImageCropperDelegate.java:222-227 | A pending result gets exactly one error with the code and message, and the slot empties. With nothing pending, nothing is sent. `Valid` is kept. |
| Delegate.ImageCropperDelegate.CacheImage | android/src/main/java/vn/hunghd/flutter/plugins/imagecropper/ImageCropperDelegate.java:173-177 | The kept path becomes the given path, replacing any earlier one. No other preference changes. |
| Delegate.ImageCropperDelegate.GetAndClearCachedImage | android/src/main/java/vn/hunghd/flutter/plugins/imagecropper/ImageCropperDelegate.java:179-188 | Returns the kept path, or null when there is none. Afterwards no path is kept, and no other preference changes. |
| Delegate.ImageCropperDelegate.RecoverImage | android/src/main/java/vn/hunghd/flutter/plugins/imagecropper/ImageCropperDelegate.java:169-171 | The call's result gets exactly one success carrying the previously kept path, or null. The kept path is removed. The pending crop is untouched. |
| Delegate.ImageCropperDelegate.OnActivityResult | android/src/main/java/vn/hunghd/flutter/plugins/imagecropper/ImageCropperDelegate.java:191-213 | The behaviour depends on the request and result codes. Every case keeps `Valid`. The cases are listed below. |
| Delegate.CropIsAnsweredOnce | android/src/main/java/vn/hunghd/flutter/plugins/imagecropper/ImageCropperDelegate.java:191-213 | A crop started on a new result and then returned is handled, and its result gets exactly one reply. That reply is the path, the "crop_error" error, or null, according to the result code. |
| Delegate.RecoverTwice | android/src/main/java/vn/hunghd/flutter/plugins/imagecropper/ImageCropperDelegate.java:169-188 | Of two recoveries with no crop in between, the first gets the kept path (or null) and the second gets null. |
| Delegate.RecoverAfterRestart | android/src/main/java/vn/hunghd/flutter/plugins/imagecropper/ImageCropperDelegate.java:169-200 | A crop completes, and then a new delegate is made over the same preferences, as after a process restart. The first recovery returns the cropped path and the second returns null. |

The cases of `Delegate.ImageCropperDelegate.OnActivityResult`:

- **Any other request code:** not handled. The pending result and the preferences do not change.
- **The crop completed:** the path is kept for recovery. A pending result gets exactly one success with the path, and the slot empties. The call is handled.
- **The crop failed:** a pending result gets exactly one `"crop_error"` error with the error message, and the slot empties. The preferences do not change. The call is handled even when nothing was pending.
- **Any other result code:** a pending result gets exactly one null success, and the slot empties. The call is handled exactly when a result was pending.

## Left out

- **Android plumbing.** `Activity`, `Intent`, `Uri`, `File`, the cache directory, `startActivityForResult`, and the registration and unregistration of the activity lifecycle callbacks are not modelled. A launch is recorded as a `CropRequest` event in the ghost log `launches`.
- **The status bar appearance.** The window-insets callback that applies `lightStatusBars` to the crop screen is not modelled, and neither is the platform version test around it. The flag is only recorded in the launch.
- **`darkenColor`.** It is floating-point HSV arithmetic through `android.graphics.Color`. Here it is the function `darken`, given when the delegate is built.
- **`ratio_x` and `ratio_y`.** They are recorded as reals when both are present. The conversion to float is not modelled.
- **Output file names.** The timestamp in the file name is left out. Only the extension is modelled.
- **Foreign calls.** `UCrop.getOutput`, `FileUtils.getPathFromUri`, `UCrop.getError` and `getLocalizedMessage` are not modelled. Their results reach `OnActivityResult` as the inputs `outputPath` and `errorMessage`.
- **Missing values from foreign calls.** A null path from `getPathFromUri`, and a missing error from `UCrop.getError`, which would throw, are not modelled.
- **Preference writes.** `SharedPreferences.apply()` writes asynchronously. Here every write takes effect at once.
- **The "original" title.** Its source is a localised resource string, upper-cased. Here it is the constant "ORIGINAL".
- **Arguments of the wrong type.** A call argument of the wrong type would throw `ClassCastException`. Here every argument is typed, or absent.
- **The null-activity checks.** The constructor already dereferences the activity, so a delegate always has one and these checks never fire. They are not modelled.
- Delegate.ImageCropperDelegate.StartCrop: a call without `source_path` is modelled as a call that makes its result pending and stops. The `NullPointerException` the source then throws is not modelled, and neither is what the caller does with it.
- Delegate.ImageCropperDelegate.StartCrop: requires that the result is new: never answered and not pending. Each Flutter method call gets its own result object. The source itself does not check this.
- Delegate.ImageCropperDelegate.RecoverImage: requires that the result is new, for the same reason as `StartCrop`.
- CropOptions.SetupUiCustomizedOptions: each guarded setter call is written as an unconditional store of `Override(current, argument)`. This keeps the previous setting when the argument is absent, which is what the setter guard does.
- **What the library does with the default index.** The library's handling of a default index that lies past the ratio list is not part of this model.
