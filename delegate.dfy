/**
 * The plugin's delegate: it starts a crop for a `cropImage` call, answers
 * that call's pending result when the crop screen returns, and keeps the
 * path of the last cropped image in the app's preferences so that a later
 * `recoverImage` call can still get it after the process was killed.
 *
 * The crop screen itself, the files and URIs it works on and the platform's
 * activity machinery are outside the model: a launch is recorded as an
 * event, and what the screen hands back (the output path, the error
 * message) arrives as plain inputs.
 */
module Delegate {
  import opened Wrappers
  import opened AspectRatios
  import opened CropOptions

  /** The request code the crop screen is started with (the cropping library's constant). */
  const REQUEST_CROP: int := 69

  /** The result code of a crop screen that ended with an error (the cropping library's constant). */
  const RESULT_ERROR: int := 96

  /** The result code of a screen that completed (the platform's constant). */
  const RESULT_OK: int := -1

  /** The preference key the last cropped path is kept under. */
  const FILENAME_CACHE_KEY: string := "imagecropper.FILENAME_CACHE_KEY"

  /** The error code a failed crop is answered with. */
  const CROP_ERROR: string := "crop_error"

  /** One Flutter result object: the reply channel of one method call. */
  type ResultId = nat

  /** What a result is answered with: a success value (`None` is null), or an error code and message. */
  datatype Response = Success(value: Option<string>) | Error(code: string, message: Option<string>)

  /** One answer, sent on the result `to`. */
  datatype Reply = Reply(to: ResultId, response: Response)

  /** The answer to the pending result, if there is one; nothing otherwise. */
  function ReplyTo(pending: Option<ResultId>, response: Response): seq<Reply> {
    if pending.Some? then [Reply(pending.value, response)] else []
  }

  /** A launch of the crop screen: what the cropping library is asked to do. */
  datatype CropRequest = CropRequest(
    sourcePath: string,
    outputExtension: string,
    options: Settings,
    maxResultSize: Option<(int, int)>,
    aspectRatio: Option<(real, real)>,
    lightStatusBars: bool)

  /** The launch a `cropImage` call with a source path makes. */
  function CropRequestFor(call: CallArgs, sourcePath: string, darken: int -> int): CropRequest {
    CropRequest(
      sourcePath,
      ChooseOutputFormat(call.compressFormat).extension,
      StartOptions(call, darken),
      if call.maxWidth.Some? && call.maxHeight.Some? then Some((call.maxWidth.value, call.maxHeight.value)) else None,
      if call.ratioX.Some? && call.ratioY.Some? then Some((call.ratioX.value, call.ratioY.value)) else None,
      call.lightStatusBar == Some(true))
  }

  /** A maximum result size is applied only when both its width and its height are given. */
  lemma MaxResultSizeNeedsBoth(call: CallArgs, sourcePath: string, darken: int -> int)
    ensures CropRequestFor(call, sourcePath, darken).maxResultSize.Some? <==> call.maxWidth.Some? && call.maxHeight.Some?
    ensures CropRequestFor(call, sourcePath, darken).maxResultSize.Some? ==>
      CropRequestFor(call, sourcePath, darken).maxResultSize.value == (call.maxWidth.value, call.maxHeight.value)
  {
  }

  /** The output file's extension names the encoding the options ask for. */
  lemma OutputExtensionMatchesFormat(call: CallArgs, sourcePath: string, darken: int -> int)
    ensures var request := CropRequestFor(call, sourcePath, darken);
      (request.outputExtension == ".png" <==> request.options.compressionFormat == Some(PNG)) &&
      (request.outputExtension == ".jpg" <==> request.options.compressionFormat == Some(JPEG))
  {
    StartOptionsFormat(call, darken);
  }

  /** The app's shared preferences: a persistent string store that outlives the process. */
  class Preferences {
    var entries: map<string, string>

    constructor (entries: map<string, string>)
      ensures this.entries == entries
    {
      this.entries := entries;
    }

    predicate Contains(key: string)
      reads this
    {
      key in entries
    }

    function GetString(key: string, default: string): string
      reads this
    {
      if key in entries then entries[key] else default
    }

    method PutString(key: string, value: string)
      modifies this
      ensures entries == old(entries)[key := value]
    {
      entries := entries[key := value];
    }

    method Remove(key: string)
      modifies this
      ensures entries == old(entries) - {key}
    {
      entries := entries - {key};
    }
  }

  class ImageCropperDelegate {
    /** The preferences of the app the delegate belongs to. */
    const preferences: Preferences
    /** The colour transformation a status bar colour is derived with (HSV arithmetic, not modelled). */
    const darken: int -> int

    /** The result of the crop in progress, waiting for its answer. */
    var pendingResult: Option<ResultId>
    /** Every answer sent so far, in order. */
    ghost var replies: seq<Reply>
    /** Every launch of the crop screen so far, in order. */
    ghost var launches: seq<CropRequest>

    ghost predicate Answered(r: ResultId)
      reads this
    {
      exists i :: 0 <= i < |replies| && replies[i].to == r
    }

    /** A result never seen before: not answered and not pending. */
    ghost predicate IsNew(r: ResultId)
      reads this
    {
      !Answered(r) && pendingResult != Some(r)
    }

    /** The pending result is still unanswered, and no result is ever answered twice. */
    ghost predicate Valid()
      reads this
    {
      (pendingResult.Some? ==> !Answered(pendingResult.value)) &&
      (forall i, j :: 0 <= i < j < |replies| ==> replies[i].to != replies[j].to)
    }

    /** The path kept for recovery, if any. */
    ghost function CachedImage(): Option<string>
      reads preferences
    {
      if FILENAME_CACHE_KEY in preferences.entries then Some(preferences.entries[FILENAME_CACHE_KEY]) else None
    }

    constructor (preferences: Preferences, darken: int -> int)
      ensures this.preferences == preferences && this.darken == darken
      ensures pendingResult == None && replies == [] && launches == []
      ensures Valid()
    {
      this.preferences := preferences;
      this.darken := darken;
      pendingResult := None;
      replies := [];
      launches := [];
    }

    /**
     * Starts a crop for a `cropImage` call answered on `result`. The result
     * becomes the pending one (a result still pending before is dropped
     * unanswered). Without a source path the call fails before the crop
     * screen is launched, but after the result was made pending.
     */
    method StartCrop(call: CallArgs, result: ResultId)
      requires Valid() && IsNew(result)
      modifies this
      ensures Valid()
      ensures pendingResult == Some(result)
      ensures replies == old(replies)
      ensures launches == old(launches) +
        if call.sourcePath.Some? then [CropRequestFor(call, call.sourcePath.value, darken)] else []
    {
      pendingResult := Some(result);
      var output := ChooseOutputFormat(call.compressFormat);
      if call.sourcePath.None? {
        return;
      }
      var options := new Options();
      options.settings := options.settings.(compressionFormat := Some(output.format));
      options.settings := options.settings.(compressionQuality := Some(call.compressQuality.GetOr(DefaultCompressionQuality)));
      if call.cropStyle == Some("circle") {
        options.settings := options.settings.(circleDimmedLayer := Some(true));
      }
      SetupUiCustomizedOptions(options, call.ui, darken);
      if call.aspectRatioPresets.Some? {
        var ratios, defaultIndex := BuildAspectRatioOptions(call.aspectRatioPresets.value, call.initAspectRatio);
        options.settings := options.settings.(aspectRatioOptions := Some(RatioOptions(defaultIndex, ratios)));
      }
      var maxResultSize: Option<(int, int)> := None;
      if call.maxWidth.Some? && call.maxHeight.Some? {
        maxResultSize := Some((call.maxWidth.value, call.maxHeight.value));
      }
      var aspectRatio: Option<(real, real)> := None;
      if call.ratioX.Some? && call.ratioY.Some? {
        aspectRatio := Some((call.ratioX.value, call.ratioY.value));
      }
      launches := launches + [CropRequest(
        call.sourcePath.value, output.extension, options.settings,
        maxResultSize, aspectRatio, call.lightStatusBar == Some(true))];
    }

    method ClearMethodCallAndResult()
      modifies this
      ensures pendingResult == None
      ensures replies == old(replies) && launches == old(launches)
    {
      pendingResult := None;
    }

    /** Answers the pending result, if any, with the path, and clears it. */
    method FinishWithSuccess(imagePath: string)
      requires Valid()
      modifies this
      ensures Valid()
      ensures pendingResult == None
      ensures replies == old(replies) + ReplyTo(old(pendingResult), Success(Some(imagePath)))
      ensures launches == old(launches)
    {
      if pendingResult.Some? {
        replies := replies + [Reply(pendingResult.value, Success(Some(imagePath)))];
        ClearMethodCallAndResult();
      }
    }

    /** Answers the pending result, if any, with an error, and clears it. */
    method FinishWithError(errorCode: string, errorMessage: Option<string>)
      requires Valid()
      modifies this
      ensures Valid()
      ensures pendingResult == None
      ensures replies == old(replies) + ReplyTo(old(pendingResult), Error(errorCode, errorMessage))
      ensures launches == old(launches)
    {
      if pendingResult.Some? {
        replies := replies + [Reply(pendingResult.value, Error(errorCode, errorMessage))];
        ClearMethodCallAndResult();
      }
    }

    /** Keeps the path for recovery, replacing any path kept before. */
    method CacheImage(filePath: string)
      modifies preferences
      ensures preferences.entries == old(preferences.entries)[FILENAME_CACHE_KEY := filePath]
      ensures CachedImage() == Some(filePath)
    {
      preferences.PutString(FILENAME_CACHE_KEY, filePath);
    }

    /** Takes the kept path out of the preferences: returns it, or `None` when there is none. */
    method GetAndClearCachedImage() returns (path: Option<string>)
      modifies preferences
      ensures path == old(CachedImage())
      ensures preferences.entries == old(preferences.entries) - {FILENAME_CACHE_KEY}
      ensures CachedImage() == None
    {
      if preferences.Contains(FILENAME_CACHE_KEY) {
        var result := preferences.GetString(FILENAME_CACHE_KEY, "");
        preferences.Remove(FILENAME_CACHE_KEY);
        return Some(result);
      }
      return None;
    }

    /** Answers a `recoverImage` call on `result` with the kept path (or null) and forgets the path. */
    method RecoverImage(result: ResultId)
      requires Valid() && IsNew(result)
      modifies this, preferences
      ensures Valid()
      ensures replies == old(replies) + [Reply(result, Success(old(CachedImage())))]
      ensures preferences.entries == old(preferences.entries) - {FILENAME_CACHE_KEY}
      ensures pendingResult == old(pendingResult) && launches == old(launches)
    {
      var path := GetAndClearCachedImage();
      replies := replies + [Reply(result, Success(path))];
    }

    /**
     * The crop screen (or any other screen) returned. Only the crop screen's
     * request code is handled: a completed crop keeps the path for recovery
     * and answers the pending result with it; a failed crop answers it with
     * `"crop_error"`; any other result code (the user backed out) answers it
     * with null, and is handled only when a result was pending.
     */
    method OnActivityResult(requestCode: int, resultCode: int, outputPath: string, errorMessage: Option<string>)
      returns (handled: bool)
      requires Valid()
      modifies this, preferences
      ensures Valid()
      ensures launches == old(launches)
      ensures requestCode != REQUEST_CROP ==>
        !handled && pendingResult == old(pendingResult) && replies == old(replies) &&
        preferences.entries == old(preferences.entries)
      ensures requestCode == REQUEST_CROP && resultCode == RESULT_OK ==>
        handled && pendingResult == None &&
        replies == old(replies) + ReplyTo(old(pendingResult), Success(Some(outputPath))) &&
        preferences.entries == old(preferences.entries)[FILENAME_CACHE_KEY := outputPath]
      ensures requestCode == REQUEST_CROP && resultCode == RESULT_ERROR ==>
        handled && pendingResult == None &&
        replies == old(replies) + ReplyTo(old(pendingResult), Error(CROP_ERROR, errorMessage)) &&
        preferences.entries == old(preferences.entries)
      ensures requestCode == REQUEST_CROP && resultCode != RESULT_OK && resultCode != RESULT_ERROR ==>
        handled == old(pendingResult).Some? && pendingResult == None &&
        replies == old(replies) + ReplyTo(old(pendingResult), Success(None)) &&
        preferences.entries == old(preferences.entries)
    {
      if requestCode == REQUEST_CROP {
        if resultCode == RESULT_OK {
          CacheImage(outputPath);
          FinishWithSuccess(outputPath);
          return true;
        } else if resultCode == RESULT_ERROR {
          FinishWithError(CROP_ERROR, errorMessage);
          return true;
        } else if pendingResult.Some? {
          replies := replies + [Reply(pendingResult.value, Success(None))];
          ClearMethodCallAndResult();
          return true;
        }
      }
      return false;
    }
  }

  /** The answer a crop screen's result code leads to. */
  function CropResponse(resultCode: int, outputPath: string, errorMessage: Option<string>): Response {
    if resultCode == RESULT_OK then Success(Some(outputPath))
    else if resultCode == RESULT_ERROR then Error(CROP_ERROR, errorMessage)
    else Success(None)
  }

  /** A crop started on a new result and then finished is answered on that result exactly once. */
  method CropIsAnsweredOnce(
    d: ImageCropperDelegate, call: CallArgs, result: ResultId,
    resultCode: int, outputPath: string, errorMessage: Option<string>)
    returns (handled: bool)
    requires d.Valid() && d.IsNew(result)
    modifies d, d.preferences
    ensures d.Valid() && handled && d.pendingResult == None
    ensures d.replies == old(d.replies) + [Reply(result, CropResponse(resultCode, outputPath, errorMessage))]
  {
    d.StartCrop(call, result);
    handled := d.OnActivityResult(REQUEST_CROP, resultCode, outputPath, errorMessage);
  }

  /** Two `recoverImage` calls with no crop in between: the second is answered with null. */
  method RecoverTwice(d: ImageCropperDelegate, first: ResultId, second: ResultId)
    requires d.Valid() && d.IsNew(first) && d.IsNew(second) && first != second
    modifies d, d.preferences
    ensures d.replies == old(d.replies) + [Reply(first, Success(old(d.CachedImage()))), Reply(second, Success(None))]
  {
    d.RecoverImage(first);
    d.RecoverImage(second);
  }

  /**
   * A crop completes, the process is then killed and started again with a
   * new delegate over the same preferences: the path is recovered once, and
   * only once.
   */
  method RecoverAfterRestart(call: CallArgs, outputPath: string, darken: int -> int)
    returns (recovered: Option<string>, recoveredAgain: Option<string>)
    ensures recovered == Some(outputPath) && recoveredAgain == None
  {
    var preferences := new Preferences(map[]);
    var before := new ImageCropperDelegate(preferences, darken);
    before.StartCrop(call, 0);
    var handled := before.OnActivityResult(REQUEST_CROP, RESULT_OK, outputPath, None);
    var after := new ImageCropperDelegate(preferences, darken);
    recovered := after.GetAndClearCachedImage();
    recoveredAgain := after.GetAndClearCachedImage();
  }
}
