/**
 * The view manager (`ReactWebViewManager`): the state it keeps across views for the
 * file chooser and the full-screen custom view, and the property and command entry
 * points that act on one view.
 *
 * A file-chooser request hands over a callback; the manager keeps at most one pending.
 * A new request first answers the pending one with null; an activity result answers it
 * with the chosen files (possibly none) and empties the slot.  A callback is named here
 * by the index of the request that supplied it.
 */
module Manager {
  import opened Wrappers
  import opened Events
  import opened WebView
  import opened Commands
  import opened SourceSelection
  import Utf8

  const INPUT_FILE_REQUEST_CODE: int := 1001
  /** `Activity.RESULT_OK` */
  const RESULT_OK: int := -1

  /** The intent an activity result carries: none, or one with a data string that may be null. */
  datatype ResultData = NoData | Data(dataString: Option<string>)

  /**
   * The files an activity result delivers: the camera photo when the result is OK with
   * no intent and a photo path is known, the intent's data string when it has one, and
   * otherwise none.
   */
  function ChosenFiles(resultCode: int, data: ResultData, cameraPhotoPath: Option<string>): (r: seq<string>)
    ensures |r| <= 1
    ensures r != [] <==>
      resultCode == RESULT_OK &&
      ((data.NoData? && cameraPhotoPath.Some?) || (data.Data? && data.dataString.Some?))
    ensures r != [] && data.NoData? ==> r[0] == cameraPhotoPath.value
    ensures r != [] && data.Data? ==> r[0] == data.dataString.value
  {
    if resultCode != RESULT_OK then []
    else match data
      case NoData => if cameraPhotoPath.Some? then [cameraPhotoPath.value] else []
      case Data(dataString) => if dataString.Some? then [dataString.value] else []
  }

  /** The callback objects the widget hands over, and the views it asks to show full screen. */
  type CallbackId = int
  type ViewId = int

  /** A chooser activity started for a request; `withCamera` says whether a camera intent is offered. */
  datatype ChooserLaunch = ChooserLaunch(callback: CallbackId, requestCode: int, withCamera: bool)

  /** A value handed to the callback of request `request`; None is `null`. */
  datatype Delivery = Delivery(request: nat, value: Option<seq<string>>)

  class ReactWebViewManager {
    /** The request whose callback waits for an answer, if any. */
    var filePathCallback: Option<nat>
    var cameraPhotoPath: Option<string>
    /** One entry per chooser request, oldest first. */
    var launches: seq<ChooserLaunch>
    /** Every value handed to a file-path callback, oldest first. */
    var deliveries: seq<Delivery>
    var videoView: Option<ViewId>
    var customViewCallback: Option<CallbackId>
    /** Every `onCustomViewHidden` notification, oldest first. */
    var hiddenNotices: seq<CallbackId>

    /**
     * Requests are answered in order, each exactly once, except the last one while it
     * is pending; a shown custom view always has its callback.
     */
    ghost predicate Valid()
      reads this
    {
      && (forall i :: 0 <= i < |deliveries| ==> deliveries[i].request == i)
      && (filePathCallback.None? ==> |deliveries| == |launches|)
      && (filePathCallback.Some? ==> |deliveries| + 1 == |launches| && filePathCallback.value == |deliveries|)
      && (videoView.Some? ==> customViewCallback.Some?)
    }

    constructor ()
      ensures Valid()
      ensures filePathCallback == None && cameraPhotoPath == None && launches == [] && deliveries == []
      ensures videoView == None && customViewCallback == None && hiddenNotices == []
    {
      filePathCallback := None;
      cameraPhotoPath := None;
      launches := [];
      deliveries := [];
      videoView := None;
      customViewCallback := None;
      hiddenNotices := [];
    }

    /**
     * `onShowFileChooser`.  `cameraResolves` says whether a camera activity exists;
     * `photoFile` is the path of the image file created for it, None if creating it failed.
     */
    method OnShowFileChooser(callback: CallbackId, cameraResolves: bool, photoFile: Option<string>) returns (handled: bool)
      requires Valid()
      modifies this`filePathCallback, this`cameraPhotoPath, this`launches, this`deliveries
      ensures Valid()
      ensures handled
      ensures old(filePathCallback).Some? ==> deliveries == old(deliveries) + [Delivery(old(filePathCallback).value, None)]
      ensures old(filePathCallback).None? ==> deliveries == old(deliveries)
      ensures launches == old(launches) + [ChooserLaunch(callback, INPUT_FILE_REQUEST_CODE, !cameraResolves || photoFile.Some?)]
      ensures filePathCallback == Some(|launches| - 1)
      ensures cameraPhotoPath == if cameraResolves && photoFile.Some? then Some("file:" + photoFile.value) else old(cameraPhotoPath)
    {
      if filePathCallback.Some? {
        deliveries := deliveries + [Delivery(filePathCallback.value, None)];
      }
      filePathCallback := Some(|launches|);
      var withCamera := true;
      if cameraResolves {
        if photoFile.Some? {
          cameraPhotoPath := Some("file:" + photoFile.value);
        } else {
          withCamera := false;
        }
      }
      launches := launches + [ChooserLaunch(callback, INPUT_FILE_REQUEST_CODE, withCamera)];
      handled := true;
    }

    /** `onActivityResult`: answers the pending callback for a chooser result and empties the slot. */
    method OnActivityResult(requestCode: int, resultCode: int, data: ResultData)
      requires Valid()
      modifies this`filePathCallback, this`deliveries
      ensures Valid()
      ensures requestCode != INPUT_FILE_REQUEST_CODE || old(filePathCallback).None? ==>
        filePathCallback == old(filePathCallback) && deliveries == old(deliveries)
      ensures requestCode == INPUT_FILE_REQUEST_CODE && old(filePathCallback).Some? ==>
        filePathCallback == None &&
        deliveries == old(deliveries) + [Delivery(old(filePathCallback).value, Some(ChosenFiles(resultCode, data, cameraPhotoPath)))]
    {
      if requestCode != INPUT_FILE_REQUEST_CODE || filePathCallback.None? {
        return;
      }
      var results: Option<seq<string>> := None;
      if resultCode == RESULT_OK {
        match data {
          case NoData =>
            // no intent: the camera may have taken a photo
            if cameraPhotoPath.Some? {
              results := Some([cameraPhotoPath.value]);
            }
          case Data(dataString) =>
            if dataString.Some? {
              results := Some([dataString.value]);
            }
        }
      }
      if results.None? {
        deliveries := deliveries + [Delivery(filePathCallback.value, Some([]))];
      } else {
        deliveries := deliveries + [Delivery(filePathCallback.value, results)];
      }
      filePathCallback := None;
    }

    /** `onShowCustomView`: a second view while one is shown is refused through its own callback. */
    method OnShowCustomView(view: ViewId, callback: CallbackId)
      requires Valid()
      modifies this`videoView, this`customViewCallback, this`hiddenNotices
      ensures Valid()
      ensures old(videoView).Some? ==>
        videoView == old(videoView) && customViewCallback == old(customViewCallback) &&
        hiddenNotices == old(hiddenNotices) + [callback]
      ensures old(videoView).None? ==>
        videoView == Some(view) && customViewCallback == Some(callback) && hiddenNotices == old(hiddenNotices)
    {
      if videoView.Some? {
        hiddenNotices := hiddenNotices + [callback];
        return;
      }
      videoView := Some(view);
      customViewCallback := Some(callback);
    }

    /** `onHideCustomView`: does nothing without a shown view; otherwise drops it and notifies its callback. */
    method OnHideCustomView()
      requires Valid()
      modifies this`videoView, this`hiddenNotices
      ensures Valid()
      ensures old(videoView).None? ==> videoView == None && hiddenNotices == old(hiddenNotices)
      ensures old(videoView).Some? ==> videoView == None && hiddenNotices == old(hiddenNotices) + [customViewCallback.value]
    {
      if videoView.None? {
        return;
      }
      videoView := None;
      hiddenNotices := hiddenNotices + [customViewCallback.value];
    }

    /**
     * `setSource`: issues the load `SourceLoad` selects and sets the user agent the
     * headers carry; `previousUrl` is what the widget reports as its current URL.
     */
    method SetSource(view: ReactWebView, source: Option<Source>, previousUrl: Option<string>)
      modifies view`trace, view`userAgent
      ensures SourceLoad(source, previousUrl).None? ==> view.trace == old(view.trace)
      ensures SourceLoad(source, previousUrl).Some? ==> view.trace == old(view.trace) + [Load(SourceLoad(source, previousUrl).value)]
      ensures view.userAgent == if SourceUserAgent(source, previousUrl).Some? then SourceUserAgent(source, previousUrl) else old(view.userAgent)
    {
      if source.Some? {
        var s := source.value;
        if s.html.Some? {
          if s.baseUrl.Some? {
            view.LoadUrlAction(LoadDataWithBaseUrl(s.baseUrl.value, s.html.value, HTML_MIME_TYPE, HTML_ENCODING));
          } else {
            view.LoadUrlAction(LoadData(s.html.value, HTML_MIME_TYPE, HTML_ENCODING));
          }
          return;
        }
        if s.uri.Some? {
          var url := s.uri.value;
          if previousUrl.Some? && previousUrl.value == url {
            return;
          }
          if s.httpMethod.Some? && s.httpMethod.value == HTTP_METHOD_POST {
            var postData: seq<byte> := [];
            if s.body.Some? {
              postData := Utf8.Encode(s.body.value);
            }
            view.LoadUrlAction(PostUrl(url, postData));
            return;
          }
          var headerMap: map<string, string> := map[];
          if s.headers.Some? {
            var userAgent;
            headerMap, userAgent := FilterHeaders(s.headers.value);
            if userAgent.Some? {
              view.userAgent := userAgent;
            }
          }
          view.LoadUrlAction(LoadUrlWithHeaders(url, headerMap));
          return;
        }
      }
      view.LoadUrlAction(LoadUrl(BLANK_URL));
    }

    /** The `mixedContentMode` property applied to a view. */
    method SetMixedContentMode(view: ReactWebView, lollipopOrLater: bool, mode: Option<string>)
      modifies view`mixedContentMode
      ensures MixedContentSetting(lollipopOrLater, mode).Some? ==> view.mixedContentMode == MixedContentSetting(lollipopOrLater, mode)
      ensures MixedContentSetting(lollipopOrLater, mode).None? ==> view.mixedContentMode == old(view.mixedContentMode)
    {
      if lollipopOrLater {
        if mode.None? || mode.value == "never" {
          view.mixedContentMode := Some(NeverAllow);
        } else if mode.value == "always" {
          view.mixedContentMode := Some(AlwaysAllow);
        } else if mode.value == "compatibility" {
          view.mixedContentMode := Some(CompatibilityMode);
        }
      }
    }

    /** `receiveCommand` applied to a view; `thrown` when the command had no argument to read. */
    method ReceiveCommand(root: ReactWebView, commandId: int, args: seq<string>, encodeData: string -> string)
      returns (thrown: bool)
      modifies root`trace
      ensures thrown <==> Commands.ReceiveCommand(commandId, args, encodeData).Failed?
      ensures Commands.ReceiveCommand(commandId, args, encodeData).Performed? ==>
        root.trace == old(root.trace) + [Commands.ReceiveCommand(commandId, args, encodeData).effect]
      ensures !Commands.ReceiveCommand(commandId, args, encodeData).Performed? ==> root.trace == old(root.trace)
    {
      thrown := false;
      var outcome := Commands.ReceiveCommand(commandId, args, encodeData);
      match outcome {
        case Performed(effect) => root.trace := root.trace + [effect];
        case Ignored =>
        case Failed => thrown := true;
      }
    }
  }

  /**
   * Two chooser requests and one result: the first callback is answered with null, the
   * second with the picked file, and the slot ends empty.
   */
  method ChooserScenario(first: CallbackId, second: CallbackId, picked: string)
  {
    var m := new ReactWebViewManager();
    var handled := m.OnShowFileChooser(first, false, None);
    handled := m.OnShowFileChooser(second, true, Some("/pictures/photo.jpg"));
    m.OnActivityResult(INPUT_FILE_REQUEST_CODE, RESULT_OK, Data(Some(picked)));
    assert m.deliveries == [Delivery(0, None), Delivery(1, Some([picked]))];
    assert m.filePathCallback == None;
    m.OnActivityResult(INPUT_FILE_REQUEST_CODE, RESULT_OK, NoData);
    assert |m.deliveries| == 2;
  }
}
