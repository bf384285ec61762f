/**
 * The cropping library's options object and how the plugin fills it from
 * the arguments of a `cropImage` call.
 *
 * The options object is a mutable bag of settings: each setter stores one
 * value, and a setting never stored is left to the library's default. It is
 * modelled as a class whose state is one record with an optional entry per
 * setter the plugin calls.
 */
module CropOptions {
  import opened Wrappers
  import opened AspectRatios

  /** The encodings the cropped image can be written in. */
  datatype BitmapFormat = PNG | JPEG

  /** The ratio choices offered in the crop screen and the one selected at first. */
  datatype RatioOptions = RatioOptions(selectedByDefault: nat, ratios: seq<AspectRatio>)

  /**
   * The settings the plugin can store on the options object, one per setter
   * it calls; `None` is a setting never stored, left to the library's default.
   */
  datatype Settings = Settings(
    compressionFormat: Option<BitmapFormat>,
    compressionQuality: Option<int>,
    circleDimmedLayer: Option<bool>,
    toolbarTitle: Option<string>,
    toolbarColor: Option<int>,
    statusBarColor: Option<int>,
    toolbarWidgetColor: Option<int>,
    rootViewBackgroundColor: Option<int>,
    activeControlsWidgetColor: Option<int>,
    dimmedLayerColor: Option<int>,
    cropFrameColor: Option<int>,
    cropGridColor: Option<int>,
    cropFrameStrokeWidth: Option<int>,
    cropGridRowCount: Option<int>,
    cropGridColumnCount: Option<int>,
    cropGridStrokeWidth: Option<int>,
    showCropGrid: Option<bool>,
    freeStyleCropEnabled: Option<bool>,
    hideBottomControls: Option<bool>,
    aspectRatioOptions: Option<RatioOptions>)

  /** A fresh options object: nothing stored. */
  const Unset: Settings := Settings(
    None, None, None, None, None, None, None, None, None, None,
    None, None, None, None, None, None, None, None, None, None)

  /** The library's options object; each setter stores one of its settings. */
  class Options {
    var settings: Settings

    constructor ()
      ensures settings == Unset
    {
      settings := Unset;
    }
  }

  /** The Android-specific UI arguments of a call; `None` is an argument that is absent (null). */
  datatype UiArgs = UiArgs(
    toolbarTitle: Option<string>,
    toolbarColor: Option<int>,
    statusBarColor: Option<int>,
    toolbarWidgetColor: Option<int>,
    backgroundColor: Option<int>,
    activeControlsWidgetColor: Option<int>,
    dimmedLayerColor: Option<int>,
    cropFrameColor: Option<int>,
    cropGridColor: Option<int>,
    cropFrameStrokeWidth: Option<int>,
    cropGridRowCount: Option<int>,
    cropGridColumnCount: Option<int>,
    cropGridStrokeWidth: Option<int>,
    showCropGrid: Option<bool>,
    lockAspectRatio: Option<bool>,
    hideBottomControls: Option<bool>)

  /** The arguments of a `cropImage` call, each typed and possibly absent. */
  datatype CallArgs = CallArgs(
    sourcePath: Option<string>,
    maxWidth: Option<int>,
    maxHeight: Option<int>,
    ratioX: Option<real>,
    ratioY: Option<real>,
    cropStyle: Option<string>,
    compressFormat: Option<string>,
    compressQuality: Option<int>,
    aspectRatioPresets: Option<seq<Option<string>>>,
    initAspectRatio: Option<string>,
    lightStatusBar: Option<bool>,
    ui: UiArgs)

  /** The file extension of the output file and the encoding the library writes it in. */
  datatype OutputFormat = OutputFormat(extension: string, format: BitmapFormat)

  /** PNG exactly when "png" is asked for, JPEG otherwise; the extension always names the encoding. */
  function ChooseOutputFormat(compressFormat: Option<string>): (r: OutputFormat)
    ensures r.format == PNG <==> compressFormat == Some("png")
    ensures r.extension == ".png" <==> r.format == PNG
    ensures r.extension == ".jpg" <==> r.format == JPEG
  {
    if compressFormat == Some("png") then OutputFormat(".png", PNG) else OutputFormat(".jpg", JPEG)
  }

  /** A setting after its setter is called with `arg` when the argument is present. */
  function Override<T>(current: Option<T>, arg: Option<T>): Option<T> {
    if arg.Some? then arg else current
  }

  /** The status bar colour derived from the toolbar colour, when there is one. */
  function DerivedStatusBarColor(toolbarColor: Option<int>, darken: int -> int): Option<int> {
    if toolbarColor.Some? then Some(darken(toolbarColor.value)) else None
  }

  /**
   * The settings after the UI set-up: every UI argument that is present is
   * stored; a status bar colour that is absent is derived with `darken` from
   * the toolbar colour when that is present; free-style cropping is the
   * negation of the aspect-ratio lock.
   */
  function ConfigureUi(s: Settings, ui: UiArgs, darken: int -> int): Settings {
    s.(
      toolbarTitle := Override(s.toolbarTitle, ui.toolbarTitle),
      toolbarColor := Override(s.toolbarColor, ui.toolbarColor),
      statusBarColor :=
        Override(Override(s.statusBarColor, DerivedStatusBarColor(ui.toolbarColor, darken)), ui.statusBarColor),
      toolbarWidgetColor := Override(s.toolbarWidgetColor, ui.toolbarWidgetColor),
      rootViewBackgroundColor := Override(s.rootViewBackgroundColor, ui.backgroundColor),
      activeControlsWidgetColor := Override(s.activeControlsWidgetColor, ui.activeControlsWidgetColor),
      dimmedLayerColor := Override(s.dimmedLayerColor, ui.dimmedLayerColor),
      cropFrameColor := Override(s.cropFrameColor, ui.cropFrameColor),
      cropGridColor := Override(s.cropGridColor, ui.cropGridColor),
      cropFrameStrokeWidth := Override(s.cropFrameStrokeWidth, ui.cropFrameStrokeWidth),
      cropGridRowCount := Override(s.cropGridRowCount, ui.cropGridRowCount),
      cropGridColumnCount := Override(s.cropGridColumnCount, ui.cropGridColumnCount),
      cropGridStrokeWidth := Override(s.cropGridStrokeWidth, ui.cropGridStrokeWidth),
      showCropGrid := Override(s.showCropGrid, ui.showCropGrid),
      freeStyleCropEnabled :=
        if ui.lockAspectRatio.Some? then Some(!ui.lockAspectRatio.value) else s.freeStyleCropEnabled,
      hideBottomControls := Override(s.hideBottomControls, ui.hideBottomControls))
  }

  /**
   * Stores every UI argument that is present on the options object and
   * leaves the other settings as they were. Each assignment stands for one
   * guarded setter call: the setter runs only when its argument is present,
   * which is what `Override` says.
   */
  method SetupUiCustomizedOptions(options: Options, ui: UiArgs, darken: int -> int)
    modifies options
    ensures options.settings == ConfigureUi(old(options.settings), ui, darken)
  {
    options.settings := options.settings.(toolbarTitle := Override(options.settings.toolbarTitle, ui.toolbarTitle));
    options.settings := options.settings.(toolbarColor := Override(options.settings.toolbarColor, ui.toolbarColor));
    options.settings := options.settings.(statusBarColor :=
      if ui.statusBarColor.Some? then ui.statusBarColor
      else Override(options.settings.statusBarColor, DerivedStatusBarColor(ui.toolbarColor, darken)));
    options.settings := options.settings.(toolbarWidgetColor := Override(options.settings.toolbarWidgetColor, ui.toolbarWidgetColor));
    options.settings := options.settings.(rootViewBackgroundColor := Override(options.settings.rootViewBackgroundColor, ui.backgroundColor));
    options.settings := options.settings.(activeControlsWidgetColor := Override(options.settings.activeControlsWidgetColor, ui.activeControlsWidgetColor));
    options.settings := options.settings.(dimmedLayerColor := Override(options.settings.dimmedLayerColor, ui.dimmedLayerColor));
    options.settings := options.settings.(cropFrameColor := Override(options.settings.cropFrameColor, ui.cropFrameColor));
    options.settings := options.settings.(cropGridColor := Override(options.settings.cropGridColor, ui.cropGridColor));
    options.settings := options.settings.(cropFrameStrokeWidth := Override(options.settings.cropFrameStrokeWidth, ui.cropFrameStrokeWidth));
    options.settings := options.settings.(cropGridRowCount := Override(options.settings.cropGridRowCount, ui.cropGridRowCount));
    options.settings := options.settings.(cropGridColumnCount := Override(options.settings.cropGridColumnCount, ui.cropGridColumnCount));
    options.settings := options.settings.(cropGridStrokeWidth := Override(options.settings.cropGridStrokeWidth, ui.cropGridStrokeWidth));
    options.settings := options.settings.(showCropGrid := Override(options.settings.showCropGrid, ui.showCropGrid));
    options.settings := options.settings.(freeStyleCropEnabled :=
      if ui.lockAspectRatio.Some? then Some(!ui.lockAspectRatio.value) else options.settings.freeStyleCropEnabled);
    options.settings := options.settings.(hideBottomControls := Override(options.settings.hideBottomControls, ui.hideBottomControls));
  }

  /** A set-up without UI arguments leaves every setting as it was. */
  lemma ConfigureUiWithoutArgs(s: Settings, darken: int -> int)
    ensures ConfigureUi(s, UiArgs(None, None, None, None, None, None, None, None, None, None, None, None, None, None, None, None), darken) == s
  {
  }

  /** The status bar colour: the explicit one, else one derived from the toolbar colour, else left unset. */
  lemma StatusBarColorFallback(s: Settings, ui: UiArgs, darken: int -> int)
    ensures ui.statusBarColor.Some? ==> ConfigureUi(s, ui, darken).statusBarColor == ui.statusBarColor
    ensures ui.statusBarColor.None? && ui.toolbarColor.Some? ==>
      ConfigureUi(s, ui, darken).statusBarColor == Some(darken(ui.toolbarColor.value))
    ensures ui.statusBarColor.None? && ui.toolbarColor.None? ==>
      ConfigureUi(s, ui, darken).statusBarColor == s.statusBarColor
  {
  }

  /** Free-style cropping is on exactly when the aspect ratio is not locked; without the argument it is left alone. */
  lemma FreeStyleIsUnlocked(s: Settings, ui: UiArgs, darken: int -> int)
    ensures ui.lockAspectRatio.Some? ==>
      ConfigureUi(s, ui, darken).freeStyleCropEnabled == Some(!ui.lockAspectRatio.value)
    ensures ui.lockAspectRatio.None? ==>
      ConfigureUi(s, ui, darken).freeStyleCropEnabled == s.freeStyleCropEnabled
  {
  }

  /** The quality used when the call gives none. */
  const DefaultCompressionQuality: int := 90

  /**
   * The settings a `cropImage` call stores, in the order it stores them:
   * encoding and quality, the circular dimmed layer for the "circle" style,
   * the UI set-up, and the ratio list when presets are given.
   */
  function StartOptions(call: CallArgs, darken: int -> int): Settings {
    var compressed := Unset.(
      compressionFormat := Some(ChooseOutputFormat(call.compressFormat).format),
      compressionQuality := Some(call.compressQuality.GetOr(DefaultCompressionQuality)));
    var styled := if call.cropStyle == Some("circle") then compressed.(circleDimmedLayer := Some(true)) else compressed;
    var customized := ConfigureUi(styled, call.ui, darken);
    if call.aspectRatioPresets.Some? then
      var presets := call.aspectRatioPresets.value;
      customized.(aspectRatioOptions :=
        Some(RatioOptions(DefaultIndex(presets, call.initAspectRatio), PresetRatios(presets))))
    else
      customized
  }

  /** The encoding is PNG exactly when "png" is asked for, and always agrees with the output file's extension. */
  lemma StartOptionsFormat(call: CallArgs, darken: int -> int)
    ensures StartOptions(call, darken).compressionFormat == Some(PNG) <==> call.compressFormat == Some("png")
    ensures StartOptions(call, darken).compressionFormat == Some(JPEG) <==> call.compressFormat != Some("png")
    ensures StartOptions(call, darken).compressionFormat == Some(ChooseOutputFormat(call.compressFormat).format)
  {
  }

  /** The quality is the requested one, or 90 when the call gives none. */
  lemma StartOptionsQuality(call: CallArgs, darken: int -> int)
    ensures call.compressQuality.Some? ==> StartOptions(call, darken).compressionQuality == call.compressQuality
    ensures call.compressQuality.None? ==> StartOptions(call, darken).compressionQuality == Some(90)
  {
  }

  /** The circular dimmed layer is switched on for the "circle" style only and never switched off. */
  lemma StartOptionsCircle(call: CallArgs, darken: int -> int)
    ensures StartOptions(call, darken).circleDimmedLayer == (if call.cropStyle == Some("circle") then Some(true) else None)
  {
  }

  /** The status bar colour and free-style rules hold of the options a call builds. */
  lemma StartOptionsUi(call: CallArgs, darken: int -> int)
    ensures StartOptions(call, darken).statusBarColor ==
      if call.ui.statusBarColor.Some? then call.ui.statusBarColor
      else if call.ui.toolbarColor.Some? then Some(darken(call.ui.toolbarColor.value))
      else None
    ensures StartOptions(call, darken).freeStyleCropEnabled ==
      if call.ui.lockAspectRatio.Some? then Some(!call.ui.lockAspectRatio.value) else None
  {
    StatusBarColorFallback(Unset, call.ui, darken);
  }

  /** Ratio options are stored exactly when presets are given: one entry per non-null preset, in order. */
  lemma StartOptionsRatios(call: CallArgs, darken: int -> int)
    ensures StartOptions(call, darken).aspectRatioOptions.Some? <==> call.aspectRatioPresets.Some?
    ensures call.aspectRatioPresets.Some? ==>
      |StartOptions(call, darken).aspectRatioOptions.value.ratios| == CountPresent(call.aspectRatioPresets.value)
  {
    if call.aspectRatioPresets.Some? {
      PresetRatiosLength(call.aspectRatioPresets.value);
    }
  }
}
