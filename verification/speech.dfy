/** The speech recognition adapter (src/utils/speech.ts): a two-state machine on
    `isListening` over the browser's recognition object. The browser object is a
    capability: whether it exists, and whether its `start()` throws on a given call.
    Its three events (result, error, end) are methods of the adapter, and what the
    adapter hands to the caller's callbacks or to the platform is recorded in order. */
module Speech {
  import opened Wrappers

  const UnsupportedMessage: string := "浏览器不支持语音识别"
  const StartFailedMessage: string := "启动语音识别失败"
  const NoSpeechMessage: string := "未检测到语音输入"
  const AudioCaptureMessage: string := "无法访问麦克风"
  const NotAllowedMessage: string := "麦克风权限被拒绝"
  const NetworkMessage: string := "网络错误"
  const GenericMessage: string := "语音识别失败"

  /** The platform error codes the adapter recognises. */
  const KnownCodes: set<string> := {"no-speech", "audio-capture", "not-allowed", "network"}

  /** The error-event handler's switch: a fixed message per known code, the generic one otherwise. */
  function ErrorMessage(code: string): (message: string)
    ensures code == "no-speech" ==> message == NoSpeechMessage
    ensures code == "audio-capture" ==> message == AudioCaptureMessage
    ensures code == "not-allowed" ==> message == NotAllowedMessage
    ensures code == "network" ==> message == NetworkMessage
    ensures code !in KnownCodes ==> message == GenericMessage
  {
    if code == "no-speech" then NoSpeechMessage
    else if code == "audio-capture" then AudioCaptureMessage
    else if code == "not-allowed" then NotAllowedMessage
    else if code == "network" then NetworkMessage
    else GenericMessage
  }

  /** Distinct known codes give distinct messages, none of them the generic one,
      and no error-event message can be mistaken for the unsupported or the
      start-failure message. */
  lemma ErrorMessagesDistinguish(a: string, b: string)
    ensures ErrorMessage(a) == GenericMessage <==> a !in KnownCodes
    ensures a in KnownCodes && b in KnownCodes && a != b ==> ErrorMessage(a) != ErrorMessage(b)
    ensures ErrorMessage(a) != UnsupportedMessage && ErrorMessage(a) != StartFailedMessage
  {
  }

  /** The two global constructors the browser may provide. */
  datatype Window = Window(speechRecognition: bool, webkitSpeechRecognition: bool)

  /** The callbacks passed to one call of `start`: `id` tells one caller's pair
      from another's, and the error callback is optional. */
  datatype Listener = Listener(id: nat, hasOnError: bool)

  /** A callback invocation made by the adapter. */
  datatype Callback =
    | ResultCallback(listener: Listener, transcript: string)
    | ErrorCallback(listener: Listener, message: string)

  /** A call made on the platform recognition object. */
  datatype PlatformCall = PlatformStart | PlatformStop

  /** One alternative of one recognition result. */
  datatype Alternative = Alternative(transcript: string, confidence: real)

  /** `SpeechRecognitionService.isSupported`: either constructor is present. */
  function IsSupported(window: Window): (supported: bool)
    ensures supported <==> window.speechRecognition || window.webkitSpeechRecognition
  {
    window.speechRecognition || window.webkitSpeechRecognition
  }

  /** The callback call for an error callback, which is skipped when the caller gave none. */
  function ErrorCallbacks(listener: Listener, message: string): seq<Callback> {
    if listener.hasOnError then [ErrorCallback(listener, message)] else []
  }

  class SpeechRecognitionService {
    /** Whether `this.recognition` was created. */
    const hasRecognizer: bool
    var isListening: bool
    /** The listener whose callbacks the installed event handlers close over. */
    var handlers: Option<Listener>
    var platformCalls: seq<PlatformCall>
    var callbacks: seq<Callback>

    /** Without a recognizer nothing is ever installed, started or listening;
        while listening, handlers are installed. */
    ghost predicate Valid()
      reads this
    {
      (!hasRecognizer ==> !isListening && handlers.None? && platformCalls == []) &&
      (isListening ==> handlers.Some?)
    }

    constructor (window: Window)
      ensures Valid() && hasRecognizer == IsSupported(window)
      ensures !isListening && handlers == None && platformCalls == [] && callbacks == []
    {
      hasRecognizer := IsSupported(window);
      isListening := false;
      handlers := None;
      platformCalls := [];
      callbacks := [];
    }

    /** start: rejected without a recognizer, ignored while listening; otherwise
        installs this listener's handlers, sets `isListening` and starts the platform
        once. If that start throws, listening ends and the start-failure message is reported. */
    method Start(listener: Listener, startThrows: bool)
      requires Valid()
      modifies this
      ensures Valid()
      ensures !hasRecognizer ==>
        !isListening && handlers == old(handlers) && platformCalls == old(platformCalls)
        && callbacks == old(callbacks) + ErrorCallbacks(listener, UnsupportedMessage)
      ensures hasRecognizer && old(isListening) ==>
        isListening && handlers == old(handlers) && platformCalls == old(platformCalls)
        && callbacks == old(callbacks)
      ensures hasRecognizer && !old(isListening) ==>
        handlers == Some(listener) && platformCalls == old(platformCalls) + [PlatformStart]
        && isListening == !startThrows
        && callbacks == old(callbacks) + (if startThrows then ErrorCallbacks(listener, StartFailedMessage) else [])
    {
      if !hasRecognizer {
        callbacks := callbacks + ErrorCallbacks(listener, UnsupportedMessage);
        return;
      }
      if isListening {
        return;
      }
      isListening := true;
      handlers := Some(listener);
      platformCalls := platformCalls + [PlatformStart];
      if startThrows {
        isListening := false;
        callbacks := callbacks + ErrorCallbacks(listener, StartFailedMessage);
      }
    }

    /** The result event: the first alternative of the first result goes to the
        installed result callback; `isListening` is left as it is. With no result
        or no alternative the handler fails before calling anything. */
    method OnResult(results: seq<seq<Alternative>>)
      requires Valid()
      modifies this`callbacks
      ensures Valid() && isListening == old(isListening)
      ensures handlers.Some? && |results| > 0 && |results[0]| > 0 ==>
        callbacks == old(callbacks) + [ResultCallback(handlers.value, results[0][0].transcript)]
      ensures !(handlers.Some? && |results| > 0 && |results[0]| > 0) ==> callbacks == old(callbacks)
    {
      if handlers.Some? && |results| > 0 && |results[0]| > 0 {
        callbacks := callbacks + [ResultCallback(handlers.value, results[0][0].transcript)];
      }
    }

    /** The error event: listening ends and the mapped message goes to the
        installed error callback, if the caller gave one. */
    method OnError(code: string)
      requires Valid()
      modifies this`isListening, this`callbacks
      ensures Valid()
      ensures handlers.Some? ==>
        !isListening && callbacks == old(callbacks) + ErrorCallbacks(handlers.value, ErrorMessage(code))
      ensures handlers.None? ==> isListening == old(isListening) && callbacks == old(callbacks)
    {
      if handlers.Some? {
        isListening := false;
        callbacks := callbacks + ErrorCallbacks(handlers.value, ErrorMessage(code));
      }
    }

    /** The end event: listening ends, and no callback is called. */
    method OnEnd()
      requires Valid()
      modifies this`isListening
      ensures Valid()
      ensures isListening == (old(isListening) && handlers.None?)
    {
      if handlers.Some? {
        isListening := false;
      }
    }

    /** stop: while listening, stops the platform and ends listening; otherwise nothing. */
    method Stop()
      requires Valid()
      modifies this`isListening, this`platformCalls
      ensures Valid() && !isListening
      ensures platformCalls == old(platformCalls) + (if old(isListening) then [PlatformStop] else [])
    {
      if hasRecognizer && isListening {
        platformCalls := platformCalls + [PlatformStop];
        isListening := false;
      }
    }

    /** getIsListening. */
    method GetIsListening() returns (listening: bool)
      ensures listening == isListening
    {
      listening := isListening;
    }
  }

  /** On a browser without recognition, start, from any state, reports the
      unsupported message to the caller's error callback and never listens. */
  method UnsupportedStart(service: SpeechRecognitionService, listener: Listener, startThrows: bool)
    returns (listening: bool)
    requires service.Valid() && !service.hasRecognizer
    modifies service
    ensures !listening
    ensures service.callbacks == old(service.callbacks) + ErrorCallbacks(listener, UnsupportedMessage)
  {
    service.Start(listener, startThrows);
    listening := service.GetIsListening();
  }

  /** From any idle state of a supported service: a second start while listening
      neither restarts the platform nor replaces the first caller's handlers, and
      a result keeps the service listening until the end event arrives. */
  method StartWhileListening(service: SpeechRecognitionService, first: Listener, second: Listener, transcript: string)
    returns (listeningAfterResult: bool, listeningAfterEnd: bool)
    requires service.Valid() && service.hasRecognizer && !service.isListening
    modifies service
    ensures service.platformCalls == old(service.platformCalls) + [PlatformStart]
    ensures service.handlers == Some(first)
    ensures listeningAfterResult && !listeningAfterEnd
    ensures service.callbacks == old(service.callbacks) + [ResultCallback(first, transcript)]
  {
    service.Start(first, false);
    service.Start(second, false);
    service.OnResult([[Alternative(transcript, 1.0)]]);
    listeningAfterResult := service.GetIsListening();
    service.OnEnd();
    listeningAfterEnd := service.GetIsListening();
  }

  /** One start may reach both callbacks: the result handler leaves the handlers
      installed and the service listening, so a later error event also reaches
      the error callback, and every further result reaches the result callback. */
  method ResultThenError(service: SpeechRecognitionService, listener: Listener, transcript: string, code: string)
    requires service.Valid() && service.hasRecognizer && !service.isListening && listener.hasOnError
    modifies service
    ensures service.callbacks == old(service.callbacks) +
      [ResultCallback(listener, transcript), ResultCallback(listener, transcript), ErrorCallback(listener, ErrorMessage(code))]
  {
    service.Start(listener, false);
    service.OnResult([[Alternative(transcript, 1.0)]]);
    service.OnResult([[Alternative(transcript, 1.0)]]);
    service.OnError(code);
  }
}
