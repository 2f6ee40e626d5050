# VoiceInk core, modelled in Dafny

VoiceInk is a macOS dictation app. It records from the microphone, transcribes the recording with a
local whisper.cpp model, the OS-native recogniser, the on-device Parakeet recogniser or a cloud
service, optionally improves the text with an AI "enhancement" service, pastes the result at the
cursor and keeps a history of transcriptions. This project models the decision and bookkeeping
code around that flow and proves properties of it:

- `whisper_state.dfy` (module `Whisper`): the `WhisperState` orchestrator as a class whose fields
  are the app's flags. It covers:
  - starting and stopping the recorder, and the cancel short-circuits;
  - dispatch on the model's provider;
  - post-processing of the transcript;
  - the `Transcription` record written on success, on enhancement failure and on transcription failure;
  - the paste and clean-up calls, the retry gate and the default-model setters;
  - the names derived from a whisper.cpp model.

  Calls on collaborators are appended to a ghost log `effects`. The methods are proved against pure
  functions (`TranscriptionEffects`, `RecordsWritten`, `RetryTarget`, ...), and the lemmas about
  those functions state what the app promises.
- `parakeet.dfy` (module `Parakeet`): WAV sample intake, meaning 16-bit little-endian decoding after
  the 44-byte header and normalisation to [-1, 1]. Also the `ParakeetService` class with its
  load / transcribe / clean-up lifecycle.
- `screen_capture.dfy` (module `ScreenCapture`): the window candidates, the eligibility rule, the
  frontmost-first window choice, joining OCR lines, the context text, and the
  `ScreenCaptureService` class with its re-entrancy guard.
- `power_mode_form.dfy` (module `PowerModeForm`): the Power Mode configuration form. It covers:
  - the list edits (add a website, toggle an app, remove by id);
  - the form-to-configuration builder per mode, and the initial values per mode;
  - the save and validation gates, the language picker's comparator and the model-name fallback.
- `native_apple.dfy` (module `NativeApple`): the locale table, the error descriptions and the
  live `transcribe` stub of the OS-native service.
- `recorder_display.dfy` (module `RecorderDisplay`): the emoji classifier of the recorder's toggle
  buttons, the record button's glyph, colour and disabled state, and the status display.
- `common.dfy` (module `Common`): `Option`/`Result`, `hasPrefix`/`contains`, Foundation's
  whitespace trimming, `first(where:)` and `filter`.

Where the code and its description disagree, the code is followed. Example: the context text's
header ends with one line break, not two, because the blank last line of a Swift multi-line
literal adds a single newline.

## Model

| member | source | states |
|---|---|---|
| Common.TrimIsMaximalSlice | VoiceInk/Whisper/WhisperState.swift:305 | trimming keeps the middle slice of the text: everything dropped before and after it is Unicode whitespace, and the kept text neither starts nor ends with whitespace |
| Common.TrimStartDropsLeadingWhitespace | VoiceInk/Whisper/WhisperState.swift:305 | dropping leading whitespace leaves a suffix that does not start with whitespace, and only whitespace was dropped |
| Common.TrimEndDropsTrailingWhitespace | VoiceInk/Whisper/WhisperState.swift:305 | dropping trailing whitespace leaves a prefix that does not end with whitespace, and only whitespace was dropped |
| Common.TrimIdempotent | VoiceInk/Services/ScreenCaptureService.swift:45 | trimming an already trimmed text changes nothing |
| Common.FirstWhere | VoiceInk/PowerMode/PowerModeConfigView.swift:652 | `firstIndex(where:)` gives the least index whose element matches, and None exactly when nothing matches |
| Common.Filter | VoiceInk/PowerMode/PowerModeConfigView.swift:251 | filtering keeps exactly the elements the predicate accepts, each with its multiplicity, and drops every other element; a one-element list is kept exactly when the predicate accepts its element |
| Common.FilterOfConcat | VoiceInk/PowerMode/PowerModeConfigView.swift:251 | filtering keeps order: the survivors of two lists one after the other are those of the first followed by those of the second |
| Whisper.ServiceFor | VoiceInk/Whisper/WhisperState.swift:294-302 | the provider switch is total: the local service exactly for `.local`, the native service exactly for `.nativeApple`, the cloud service exactly for every other provider |
| Whisper.FirstNamed | VoiceInk/Whisper/WhisperState.swift:505-510 | the model found by name is listed and has that name, no earlier model has it, and None means no model has it |
| Whisper.FirstWithId | VoiceInk/Whisper/WhisperState.swift:538-549 | the model found by id is listed, has that id and no earlier model has it; None means no model has it |
| Whisper.DerivedNames | VoiceInk/Whisper/WhisperState.swift:552-578 | the weights are `<name>.bin` under the model host; a name containing "q5" or "q8" has no Core ML archive; the encoder directory exists exactly when the archive does, the archive is that directory zipped under the host, and the directory name starts with the model name |
| Whisper.QuantisedModelHasNoCoreML | VoiceInk/Whisper/WhisperState.swift:568-577 | the quantised model "ggml-large-v3-q5_0" has neither a Core ML archive nor an encoder directory |
| Whisper.PostProcessTrims | VoiceInk/Whisper/WhisperState.swift:304-309 | `PostProcess`: without word replacement the transcript is the trimmed service output, with no whitespace at either end, and post-processing it again changes nothing |
| Whisper.EnhancementFailedText | VoiceInk/Whisper/WhisperState.swift:343 | the stored enhancement error starts with "Enhancement failed: " and the rest is the error's description |
| Whisper.TranscriptionFailedText | VoiceInk/Whisper/WhisperState.swift:409 | the failure record's text starts with "Transcription Failed: " and the rest is the error's description |
| Whisper.DeliveredText | VoiceInk/Whisper/WhisperState.swift:367-374 | the pasted text ends with one space; it starts with the trial notice exactly as the trial has expired, and between the notice and the space lies the transcript |
| Whisper.FailureOf | VoiceInk/Whisper/WhisperState.swift:287-313 | the `do` block throws the copy error first, then the missing-model error; it throws nothing exactly when the copy succeeds, a model is current, the service returns text and the duration loads |
| Whisper.EnhancementFailureKeepsTranscript | VoiceInk/Whisper/WhisperState.swift:338-356 | when enhancement throws, the one stored record keeps the post-processed transcript and the permanent audio URL, its enhanced text starts with "Enhancement failed: ", and the transcript itself is delivered |
| Whisper.EnhancedTextIsDelivered | VoiceInk/Whisper/WhisperState.swift:322-365 | a successful enhancement is stored as the record's enhanced text and is what is delivered; without enhancement the record has no enhanced text and the transcript is delivered |
| Whisper.Newest | VoiceInk/Whisper/WhisperState.swift:455-460 | the first record of the fetch sorted by descending timestamp is a stored record whose timestamp is at least every other's, and None exactly for an empty store |
| Whisper.NewestOfAppended | VoiceInk/Whisper/WhisperState.swift:455-460 | a record newer than every stored record is the newest once stored |
| Whisper.RetryTarget | VoiceInk/Whisper/WhisperState.swift:455-465 | a retry targets something exactly when the newest record's text starts with "Transcription Failed" and it has an audio URL that parses, and then it targets that URL |
| Whisper.FailureRecordIsRetried | VoiceInk/Whisper/WhisperState.swift:400-420 | the record stored after a transcription failure, once newest, is accepted by the retry gate, which targets its permanent audio URL |
| Whisper.SuccessRecordIsNotRetried | VoiceInk/Whisper/WhisperState.swift:357-365 | a success record whose transcript does not start with "Transcription Failed" is never retried while it is newest, and an empty store is never retried |
| Whisper.PasteEffects | VoiceInk/Whisper/WhisperState.swift:377-388 | the delayed paste first pastes the text, keeping the clipboard unless auto-copy is on; it copies to the clipboard exactly when auto-copy is on, and it shows the fallback window exactly when pasting is not possible |
| Whisper.PasteKeepsClipboardUnlessCopied | VoiceInk/Whisper/WhisperState.swift:379-383 | the paste preserves the clipboard exactly when no clipboard copy follows it |
| Whisper.PasteEffectsAreUserFacing | VoiceInk/Whisper/WhisperState.swift:377-388 | the delayed paste only pastes, copies to the clipboard or shows the fallback window |
| Whisper.CompletionEffectsKinds | VoiceInk/Whisper/WhisperState.swift:311-398 | once the transcript is ready no service is called and nothing is copied, and the temporary recording is removed exactly when no cancel stops the enhancement branch |
| Whisper.DeliveryEffectsKinds | VoiceInk/Whisper/WhisperState.swift:376-389 | delivery calls no service and copies nothing; it removes the temporary recording, and no other file |
| Whisper.RecordsWritten | VoiceInk/Whisper/WhisperState.swift:287-443 | the records one transcription stores: a success record with the transcript, unless a cancel stops the enhancement branch; after a failure, a failure record when the permanent copy exists and its duration loads |
| Whisper.OneRecordPerTranscription | VoiceInk/Whisper/WhisperState.swift:333-416 | at most one record is stored. The transcript is delivered exactly when one success record is stored, and that record keeps the post-processed transcript and the permanent URL. After a failure that left a permanent copy with a readable duration, the one record is a "Transcription Failed: " record with that URL and no enhanced text; without the copy or the duration nothing is stored |
| Whisper.TemporaryRecordingRemovedOnlyOnSuccess | VoiceInk/Whisper/WhisperState.swift:389 | the temporary recording is removed exactly when the transcript is delivered |
| Whisper.DeliveredTranscriptIsPasted | VoiceInk/Whisper/WhisperState.swift:367-379 | a delivered transcript is pasted as the enhanced text or the transcript, behind the trial notice when the trial has expired and followed by a space, keeping the clipboard unless auto-copy is on |
| Whisper.ProviderSelectsService | VoiceInk/Whisper/WhisperState.swift:288-304 | a transcription asks a service exactly when the permanent copy exists and a model is current, and the service asked is the one the model's provider selects |
| Whisper.FailureNotification | VoiceInk/Whisper/WhisperState.swift:423-438 | after a failure the "Tap to retry" notification is shown exactly when the permanent copy exists, and "Recording Failed" exactly when it does not |
| Whisper.FirstLocalNamed | VoiceInk/Whisper/WhisperState.swift:176 | the downloaded model found by name is listed, has that name and no earlier downloaded model has it; None means no downloaded model has it |
| Whisper.WhisperState.constructor | VoiceInk/Whisper/WhisperState.swift:94-116 | after `init` the lists are the predefined and downloaded models. The current model is the listed model named by the saved default, when there is one. It is set as the default again: its name is saved and the change is posted. `canTranscribe` and `isModelLoaded` hold exactly when that model is not local. No local model or whisper context is loaded, and nothing is recording, processing or cancelled |
| Whisper.WhisperState.SelectSavedModel | VoiceInk/Whisper/WhisperState.swift:114-115 | loading the saved default and then refreshing the list leaves the predefined models listed. A model is current exactly when one is named by the saved default, and then it is a listed model with the id of the first model with that name. That model's name is saved and the change is posted. A non-local model clears the loaded local model and sets `canTranscribe` and `isModelLoaded`; a local one leaves them as they were. Without a model nothing else changes |
| Whisper.WhisperState.LoadCurrentTranscriptionModel | VoiceInk/Whisper/WhisperState.swift:505-510 | the first listed model named by the saved default becomes current; without one the current model is unchanged |
| Whisper.WhisperState.SetDefaultTranscriptionModel | VoiceInk/Whisper/WhisperState.swift:513-532 | the model becomes current and its name the saved default. A non-local model clears the loaded local model and sets `canTranscribe` and `isModelLoaded`; a local one leaves those three unchanged. The model-change notification is posted |
| Whisper.WhisperState.RefreshAllAvailableModels | VoiceInk/Whisper/WhisperState.swift:538-549 | the list becomes the predefined models. A current model whose id is still listed is replaced by the listed version, as the new default: its name is saved and the change is posted. A non-local replacement clears the loaded local model and sets `canTranscribe` and `isModelLoaded`; a local one leaves those three unchanged. Otherwise nothing else changes |
| Whisper.WhisperState.ToggleRecord | VoiceInk/Whisper/WhisperState.swift:126-218 | stopping clears `isRecording` and `isVisualizerActive`, stops the recorder and keeps the recorded file and the current model. With a recorded file and a pending cancel it resets the processing flags and cleans up; with a recorded file and no cancel it starts transcribing, stores `RecordsWritten` and performs `TranscriptionEffects`; without a recorded file nothing else changes. Starting never touches the processing flags or the store. Starting without a model only shows the "No AI Model Selected" notification. A failed start leaves nothing recording and no recorded file, keeps the model and removes the temporary file. A successful start records into the temporary file, clears the cancel flag, applies the Power Mode (switching to its model when it sets one), loads the local model for the switched model when needed and captures the screen context when enabled |
| Whisper.WhisperState.StopRecording | VoiceInk/Whisper/WhisperState.swift:127-146 | the stopping branch: the recorder stops. A pending cancel resets the flags and cleans up; otherwise the recording is transcribed, with the records and calls of `RecordsWritten` and `TranscriptionEffects` |
| Whisper.WhisperState.LocalModelLoad | VoiceInk/Whisper/WhisperState.swift:175-185 | starting loads a model exactly when the current model is local, a downloaded model has its name and no whisper context is loaded; it loads that model |
| Whisper.WhisperState.StartRecording | VoiceInk/Whisper/WhisperState.swift:148-218 | without a current model only the "No AI Model Selected" notification is shown. A failed start leaves nothing recording and no recorded file, keeps the model, and removes the temporary file. A successful start records into the temporary file and applies the frontmost app's Power Mode, which may switch the current model. It then loads the local model for the model current after that switch, when needed, and captures the screen context when enabled |
| Whisper.WhisperState.BeginSession | VoiceInk/Whisper/WhisperState.swift:173-199 | once the recorder runs, the recorder is shown and the Power Mode is applied. The current model becomes the Power Mode's model when it sets one. The local-model load is the one `LocalModelLoad` gives for the switched model, and the screen capture follows when enabled |
| Whisper.WhisperState.PrepareModel | VoiceInk/Whisper/WhisperState.swift:175-185 | the local-model load is requested as `LocalModelLoad` says |
| Whisper.WhisperState.TranscribeAudio | VoiceInk/Whisper/WhisperState.swift:257-444 | a pending cancel only resets the flags and cleans up. Otherwise the processing flags are set, the cancel flag ends as `CancelPending`, the stored records are `RecordsWritten` and the calls are `TranscriptionEffects` |
| Whisper.WhisperState.TranscribeSaved | VoiceInk/Whisper/WhisperState.swift:287-443 | after the copy, the service call, then the failure handling or the completion, with the records of `RecordsWritten` |
| Whisper.WhisperState.SaveRecordingPermanently | VoiceInk/Whisper/WhisperState.swift:446-451 | the recording is copied to `<Recordings>/<UUID>.wav`, and that URL is returned, or the copy's error is thrown |
| Whisper.WhisperState.RecordFailure | VoiceInk/Whisper/WhisperState.swift:400-443 | the catch block stores a failure record only when the permanent copy exists and its duration loads, notifies (offering a retry exactly when the copy exists), then cleans up and dismisses the recorder |
| Whisper.WhisperState.CompleteTranscription | VoiceInk/Whisper/WhisperState.swift:304-398 | once the service returned text: the post-processed transcript's success record is stored unless a cancel stops the enhancement branch, and the calls are `CompletionEffects` |
| Whisper.WhisperState.EnhanceAndDeliver | VoiceInk/Whisper/WhisperState.swift:319-398 | the enhancement branch onwards stores one success record, then enhances, pastes the delivered text, removes the temporary recording, restores the enhancer's settings and cleans up |
| Whisper.WhisperState.PostProcessTranscript | VoiceInk/Whisper/WhisperState.swift:304-309 | the step-by-step trim and word replacement give `PostProcess` of the service output |
| Whisper.WhisperState.StoreTranscription | VoiceInk/Whisper/WhisperState.swift:319-365 | one success record is stored and the enhancer is called only when enhancement is active; the returned text is the enhanced text, or the transcript when enhancement is off or failed |
| Whisper.WhisperState.Deliver | VoiceInk/Whisper/WhisperState.swift:376-389 | the stop sound, the delayed paste of the text and the removal of the temporary recording, in that order |
| Whisper.WhisperState.RestoreSettingsAndCleanUp | VoiceInk/Whisper/WhisperState.swift:391-398 | the enhancer's settings are restored exactly when the detection switched AI on; then the recorder is dismissed and the model's resources released |
| Whisper.WhisperState.RetryLastTranscription | VoiceInk/Whisper/WhisperState.swift:453-502 | a failed fetch shows "Retry Failed". Nothing happens unless the retry gate accepts the newest record. A retry without a current model fails. A successful retranscription notifies success and pastes its enhanced text, or its text, followed by a space |
| Parakeet.Int16LE | VoiceInk/Services/ParakeetTranscriptionService.swift:120 | the decoded sample lies in [-32768, 32767] and is negative exactly when the high byte's top bit is set |
| Parakeet.Int16RoundTrip | VoiceInk/Services/ParakeetTranscriptionService.swift:120 | 16-bit little-endian decoding and encoding are inverse bijections between values and byte pairs |
| Parakeet.DecodeSamples | VoiceInk/Services/ParakeetTranscriptionService.swift:118-123 | an even payload of n bytes gives n/2 samples, and sample i is the signed little-endian value of bytes 2i and 2i+1 |
| Parakeet.DecodeEncodeSamples | VoiceInk/Services/ParakeetTranscriptionService.swift:118-123 | decoding the payload written for any 16-bit samples gives those samples back |
| Parakeet.Normalize | VoiceInk/Services/ParakeetTranscriptionService.swift:121 | a normalised sample always lies in [-1, 1] |
| Parakeet.NormalizeClampsOnlyMinimum | VoiceInk/Services/ParakeetTranscriptionService.swift:121 | the clamp changes only -32768 (to -1); every other 16-bit sample is divided by 32767 exactly |
| Parakeet.ReadAudioSamples | VoiceInk/Services/ParakeetTranscriptionService.swift:108-130 | an unreadable file, or one of 44 bytes or fewer, fails with `invalidAudioData`. Otherwise there are (n-44)/2 samples; sample i is the normalised value of bytes 44+2i and 45+2i, and lies in [-1, 1] |
| Parakeet.ShortRecordingIsRejected | VoiceInk/Services/ParakeetTranscriptionService.swift:84-87 | a readable recording with fewer than 16000 samples after the header decodes successfully but falls below the sample gate, which is the case where `Transcribe` throws `invalidAudioData` without calling the ASR manager |
| Parakeet.ParakeetService.constructor | VoiceInk/Services/ParakeetTranscriptionService.swift:16-19 | a new service has no manager, no loaded model and has made no ASR call |
| Parakeet.ParakeetService.LoadModel | VoiceInk/Services/ParakeetTranscriptionService.swift:21-69 | loading is a no-op when the model is loaded. A successful load builds the manager with the fixed configuration and sets the flag. Any load error clears the manager and the flag and is rethrown |
| Parakeet.ParakeetService.Transcribe | VoiceInk/Services/ParakeetTranscriptionService.swift:71-106 | it loads first when the manager is missing or the model unloaded, and rethrows the load error; with the flag set but no manager it throws `notInitialized`. Once a manager is in place, unreadable audio throws `invalidAudioData`, fewer than 16000 samples throw `invalidAudioData`, both without calling the ASR manager; otherwise the samples are passed to the manager once, while a failed load or `notInitialized` never calls it; its error is rethrown and its text is returned, formatted when formatting is on, and the model is marked unloaded. A loaded model always has a manager. A rejection after a successful load keeps the model loaded with its manager, and success keeps the manager that was loaded or the one built for the call |
| ScreenCapture.ResolvedTitle | VoiceInk/Services/ScreenCaptureService.swift:45-46 | the title is the trimmed window name when that is non-empty, else the owner's name |
| ScreenCapture.ToCandidate | VoiceInk/Services/ScreenCaptureService.swift:34-62 | an entry yields a candidate exactly when every required key is present, and the candidate holds the resolved title, owner name, window id, owner pid, layer, width and height of that entry |
| ScreenCapture.Candidates | VoiceInk/Services/ScreenCaptureService.swift:34-62 | every candidate comes from a complete entry, every complete entry gives a candidate, the first entry when complete gives the first candidate, and there are no more candidates than entries |
| ScreenCapture.CandidatesOfConcat | VoiceInk/Services/ScreenCaptureService.swift:34-62 | `compactMap` keeps list order: the candidates of two lists one after the other are those of the first followed by those of the second |
| ScreenCapture.ChooseWindowPrefersFrontmost | VoiceInk/Services/ScreenCaptureService.swift:65-74 | `ChooseWindow` with the rule `IsEligible` (layer 0, both sides at least 120 points, not this app): when the frontmost application owns an eligible window, the first such window in list order is chosen |
| ScreenCapture.ChooseWindowFallsBack | VoiceInk/Services/ScreenCaptureService.swift:65-80 | `ChooseWindow`: otherwise the first eligible window is chosen, and nothing when no window is eligible |
| ScreenCapture.ActiveWindowInfoFromEligibleEntry | VoiceInk/Services/ScreenCaptureService.swift:26-81 | `ActiveWindowInfo`: a window is found exactly when some complete entry of the window list is eligible, and the title, owner name and window number returned are those of such an entry |
| ScreenCapture.ChosenWindowIsEligibleMember | VoiceInk/Services/ScreenCaptureService.swift:71-80 | `ChooseWindow`: any chosen window is eligible and belongs to the list |
| ScreenCapture.SplitLines | VoiceInk/Services/ScreenCaptureService.swift:130-132 | splitting at line breaks gives at least one line |
| ScreenCapture.SplitJoinLines | VoiceInk/Services/ScreenCaptureService.swift:130-132 | joining lines that hold no line break and splitting again gives the lines back |
| ScreenCapture.SplitFirstLine | VoiceInk/Services/ScreenCaptureService.swift:130-132 | a joined text splits first at the line break after the first line |
| ScreenCapture.JoinLinesEmpty | VoiceInk/Services/ScreenCaptureService.swift:134 | the joined text is empty exactly when there are no lines or one empty line |
| ScreenCapture.PresentLines | VoiceInk/Services/ScreenCaptureService.swift:131 | `compactMap` keeps exactly the present top candidates: every kept line was present, every present line is kept, the first one leads when present, and there are never more lines than observations |
| ScreenCapture.PresentLinesOfConcat | VoiceInk/Services/ScreenCaptureService.swift:131 | the present lines of two observation lists one after the other are those of the first followed by those of the second |
| ScreenCapture.ExtractText | VoiceInk/Services/ScreenCaptureService.swift:111-147 | text is extracted exactly from a bitmap with an observation array whose present top candidates join to a non-empty text, and it is that join |
| ScreenCapture.ContextTextShape | VoiceInk/Services/ScreenCaptureService.swift:168-183 | the context is the window header and "Window Content:\n", then the OCR text when there is some, else "No text detected via OCR" |
| ScreenCapture.WindowHeaderNamesWindow | VoiceInk/Services/ScreenCaptureService.swift:168-172 | the header is the "Active Window: " line with the title, then the "Application: " line with the owner, each ended by one line break |
| ScreenCapture.ScreenCaptureService.constructor | VoiceInk/Services/ScreenCaptureService.swift:9-10 | a new service is not capturing and has no captured text |
| ScreenCapture.ScreenCaptureService.CaptureAndExtractText | VoiceInk/Services/ScreenCaptureService.swift:149-195 | while a capture runs it returns nil and changes nothing. Otherwise it ends not capturing. It returns nil, keeping the last text, when no window is found or the screenshot fails. Else it returns the window's context text and remembers it as the last captured text |
| PowerModeForm.CanSave | VoiceInk/PowerMode/PowerModeConfigView.swift:638-640 | a configuration can be saved exactly when its name is non-empty |
| PowerModeForm.NilIfEmpty | VoiceInk/PowerMode/PowerModeConfigView.swift:666-667 | a list becomes nil exactly when it is empty, and is kept otherwise |
| PowerModeForm.OrEmpty | VoiceInk/PowerMode/PowerModeConfigView.swift:90-91 | a stored nil list opens as empty, and a stored list opens as itself |
| PowerModeForm.ListRoundTrip | VoiceInk/PowerMode/PowerModeConfigView.swift:684-685 | opening a stored list and saving it gives back the list, with an empty list stored as nil |
| PowerModeForm.EffectiveModelName | VoiceInk/PowerMode/PowerModeConfigView.swift:57-62 | the model chosen in the form when there is one, else the current default's name |
| PowerModeForm.FilteredApps | VoiceInk/PowerMode/PowerModeConfigView.swift:46-54 | with an empty search every app is listed. Otherwise exactly the apps the search matches are listed, and only installed apps appear |
| PowerModeForm.FilteredAppsKeepsOrder | VoiceInk/PowerMode/PowerModeConfigView.swift:46-54 | the search keeps the matching apps in their order: the result for two lists one after the other is the result for the first followed by that for the second, and one app is listed exactly when it matches |
| PowerModeForm.ToggledApps | VoiceInk/PowerMode/PowerModeConfigView.swift:651-658 | an app with no selected entry gets one new entry (fresh id, its bundle id and name) appended; otherwise the list loses exactly one entry, the first with the bundle id, keeping the others in order (one fewer, multiset minus that entry) |
| PowerModeForm.ToggleTwiceRestores | VoiceInk/PowerMode/PowerModeConfigView.swift:651-658 | toggling an unselected app adds one entry, and toggling it again restores the list |
| PowerModeForm.ToggleRemovesFirstMatch | VoiceInk/PowerMode/PowerModeConfigView.swift:652-653 | toggling a selected app removes exactly one entry, the first with that bundle id |
| PowerModeForm.WithoutApp | VoiceInk/PowerMode/PowerModeConfigView.swift:251 | removing an app deletes every entry with that id, and every other entry keeps its multiplicity |
| PowerModeForm.WithoutWebsite | VoiceInk/PowerMode/PowerModeConfigView.swift:320 | removing a website deletes every entry with that id, and every other entry keeps its multiplicity |
| PowerModeForm.WithoutAppKeepsOrder | VoiceInk/PowerMode/PowerModeConfigView.swift:251 | removing an app keeps the other entries in their order: two lists one after the other lose their matching entries separately, and one entry goes exactly when it has the id |
| PowerModeForm.WithoutWebsiteKeepsOrder | VoiceInk/PowerMode/PowerModeConfigView.swift:320 | removing a website keeps the other entries in their order, in the same terms |
| PowerModeForm.ConfigurationForm.GetConfigForForm | VoiceInk/PowerMode/PowerModeConfigView.swift:660-704 | the configuration the form describes: a new one gets the fresh id, an edited one keeps its id; Add and Edit take the form's lists with empty ones as nil, EditDefault keeps the configuration's own lists; every other field is the form's current value |
| PowerModeForm.ConfigFromFields | VoiceInk/PowerMode/PowerModeConfigView.swift:660-704 | Add builds a configuration with a fresh id. Edit keeps the edited configuration's id. Add and Edit store empty lists as nil; EditDefault keeps the default's own lists. Every other field is the form's value |
| PowerModeForm.EditWithoutChangesRoundTrip | VoiceInk/PowerMode/PowerModeConfigView.swift:81-94 | opening an existing configuration and saving it unedited stores its latest version again; the only change is that empty lists become nil |
| PowerModeForm.EditDefaultWithoutChangesRoundTrip | VoiceInk/PowerMode/PowerModeConfigView.swift:95-106 | editing a default configuration `c` while the manager's default is `d` and saving unedited stores `d`'s settings with `c`'s id and `c`'s own app and website lists; when `c` is `d` the default is stored unchanged |
| PowerModeForm.AddStartsEmpty | VoiceInk/PowerMode/PowerModeConfigView.swift:70-80 | a new configuration starts unnamed (so it cannot be saved), with no triggers, no prompt and no model. Enhancement is on, screen capture off, and the provider is the saved global one |
| PowerModeForm.SaveAction | VoiceInk/PowerMode/PowerModeConfigView.swift:755-768 | any validation error means no add or update; otherwise Add adds the configuration and the other modes update it |
| PowerModeForm.StringLessIrreflexive | VoiceInk/PowerMode/PowerModeConfigView.swift:404 | no display name sorts before itself |
| PowerModeForm.StringLessTransitive | VoiceInk/PowerMode/PowerModeConfigView.swift:404 | the order on display names is transitive |
| PowerModeForm.AutoComesFirst | VoiceInk/PowerMode/PowerModeConfigView.swift:400-404 | the comparator `LanguageBefore`: "auto" goes before every language, no other language goes before it, and the rest are ordered by display name |
| PowerModeForm.LanguageBeforeIsStrictOrder | VoiceInk/PowerMode/PowerModeConfigView.swift:400-404 | `LanguageBefore`: on distinct codes the comparator is irreflexive away from "auto" and transitive |
| PowerModeForm.AutoIsListedFirst | VoiceInk/PowerMode/PowerModeConfigView.swift:400-404 | in a list in the picker's order, "auto" can only be first |
| PowerModeForm.ConfigurationForm.constructor | VoiceInk/PowerMode/PowerModeConfigView.swift:64-108 | the form's fields are the initial values for its mode, and the website field, search, errors and alert start empty |
| PowerModeForm.ConfigurationForm.AddWebsite | VoiceInk/PowerMode/PowerModeConfigView.swift:642-649 | an empty URL field changes nothing; otherwise exactly one entry with the cleaned URL is appended and the field is cleared |
| PowerModeForm.ConfigurationForm.ToggleAppSelection | VoiceInk/PowerMode/PowerModeConfigView.swift:651-658 | the selected apps become `ToggledApps` of the old ones |
| PowerModeForm.ConfigurationForm.RemoveApp | VoiceInk/PowerMode/PowerModeConfigView.swift:251 | the selected apps become `WithoutApp` of the old ones |
| PowerModeForm.ConfigurationForm.RemoveWebsite | VoiceInk/PowerMode/PowerModeConfigView.swift:320 | the websites become `WithoutWebsite` of the old ones |
| PowerModeForm.ConfigurationForm.SaveConfiguration | VoiceInk/PowerMode/PowerModeConfigView.swift:748-771 | the form's configuration is validated. Any error shows the alert, keeps the form open and changes no store. Otherwise the store is asked as `SaveAction` says and the form is dismissed |
| PowerModeForm.ConfigurationForm.OnAppear | VoiceInk/PowerMode/PowerModeConfigView.swift:620-635 | a new configuration takes the global provider when it has none and the global model when its model is nil or empty. With enhancement on and no prompt, the first prompt is chosen. Nothing else changes |
| NativeApple.ErrorDescription | VoiceInk/Services/NativeAppleTranscriptionService.swift:43-56 | every error has a non-empty description |
| NativeApple.ErrorDescriptionsDistinct | VoiceInk/Services/NativeAppleTranscriptionService.swift:43-56 | different errors have different descriptions |
| NativeApple.UnsupportedOSNamesVersion | VoiceInk/Services/NativeAppleTranscriptionService.swift:46 | the unsupported-OS description names "macOS 26" |
| NativeApple.Transcribe | VoiceInk/Services/NativeAppleTranscriptionService.swift:12-14 | whatever the audio and model, `transcribe` throws `unsupportedOS` |
| NativeApple.ListedCodesKeepTheirLanguage | VoiceInk/Services/NativeAppleTranscriptionService.swift:20-32 | `MapToAppleLocale`: a listed code maps to a language-region tag whose language part is the code |
| NativeApple.UnlistedCodesFallBack | VoiceInk/Services/NativeAppleTranscriptionService.swift:33 | `MapToAppleLocale`: any unlisted code maps to "en-US" |
| NativeApple.MapToAppleLocaleIsTag | VoiceInk/Services/NativeAppleTranscriptionService.swift:19-34 | `MapToAppleLocale`: every output is a language-region tag (section 2.1 of RFC 5646) and one of the table's values |
| NativeApple.ListedCodes | VoiceInk/Services/NativeAppleTranscriptionService.swift:20-32 | the table lists exactly the eleven codes en, es, fr, de, ar, it, ja, ko, pt, yue, zh |
| NativeApple.SampleMappings | VoiceInk/Services/NativeAppleTranscriptionService.swift:29-31 | "zh" maps to "zh-CN", "pt" to "pt-BR" and "yue" to "yue-CN" |
| RecorderDisplay.HasNonAscii | VoiceInk/Views/Recorder/RecorderComponents.swift:20 | the scan finds a non-ASCII scalar exactly when the icon has one |
| RecorderDisplay.IsEmoji | VoiceInk/Views/Recorder/RecorderComponents.swift:19-21 | an icon is an emoji exactly when it has no ".", no "-" and some non-ASCII scalar |
| RecorderDisplay.SymbolNamesAreNotEmoji | VoiceInk/Views/Recorder/RecorderComponents.swift:20 | an icon containing "." or "-", and an all-ASCII icon, is never an emoji |
| RecorderDisplay.RecordButtonFollowsPhase | VoiceInk/Views/Recorder/RecorderComponents.swift:54-80 | `RecordGlyph`, `RecordButtonColor` and `RecordButtonDisabled`: the glyph and the colour both follow one phase, chosen processing first, then recording, then idle; the button is disabled exactly when it shows the spinner |
| RecorderDisplay.ColorDeterminesGlyph | VoiceInk/Views/Recorder/RecorderComponents.swift:54-80 | `RecordGlyph`, `RecordButtonColor` and `RecordButtonDisabled`: two flag pairs with the same colour show the same glyph and the same disabled state |
| RecorderDisplay.StatusDisplayCases | VoiceInk/Views/Recorder/RecorderComponents.swift:114-140 | `StatusFor`: "Enhancing" and "Transcribing" labels for those states, an always-active visualizer exactly while recording, and the static visualizer exactly when idle |

## Left out

- SwiftUI layout, sheets, popovers, icons, colours' exact values, the toggle button's opacity and the visualizers' `scaleEffect` arithmetic: they are drawing, not logic.
- Concurrency and timing. `Task` and `Task.detached`, main-actor hops, the 0.05-second delayed paste and the recorder's delegate callbacks are modelled as sequential calls in program order. A cancel that arrives while the service transcribes is a parameter (`cancelledDuringTranscription`) applied after the service call, and the deferred clean-up is appended at the end of `transcribeAudio`.
- Foreign collaborators are parameters or oracle functions, and their calls appear only as entries of the ghost `effects` log. These are:
  - the recorder and AVFoundation duration loading;
  - FileManager copy and remove;
  - SwiftData insert and fetch (the store is the `transcriptions` field);
  - notifications, the paster, the clipboard and the fallback window;
  - the AI enhancement service and prompt detection;
  - the word-replacement service and `WhisperTextFormatter`;
  - FluidAudio's `AsrManager`, ScreenCaptureKit and Vision OCR;
  - `cleanURL`, `PowerModeValidator` and the license state.
- `retranscribeAudio` (the retry's transcription service) is not part of this model; its outcome is a parameter.
- `loadModel` of whisper.cpp and the whisper context are reduced to whether a context is loaded; a failed load is only logged in the source and is not modelled further.
- The recording permission request: on macOS it always grants, so the denied branch is not modelled.
- The Swift provider enum is not part of this model: providers are `Local`, `NativeApple` and `Other`, which is all the switch distinguishes.
- Floating point: durations and samples are reals. `Float(short) / 32767.0` is exact real division.
- Parakeet.ReadAudioSamples: requires an even payload after the header, because an odd payload makes the source read past the end (a runtime trap, not an error path).
- Parakeet.ParakeetService.Transcribe: the clean-up task runs at once rather than later, and the empty-result warning is only logged in the source.
- `captureActiveWindow()` looks the active window up a second time; the model takes it to find the same window as the first lookup over the same list, so only the screenshot itself can fail.
- `cleanupModelResources()` and `dismissMiniRecorder()` are WhisperState methods defined outside the modelled file, so they are not part of this model. Only their calls are logged (`CleanupModelResources`, `DismissMiniRecorder`). The end flags that `TranscribeAudio`, `StopRecording` and `ToggleRecord` state (`isProcessing`, `isTranscribing`, `canTranscribe`, `shouldCancelRecording`) are the flags before any reset those methods perform.
- `ActiveWindowService.applyConfigurationForCurrentApp()` is not part of this model. Its one effect on this class that the model keeps is the model switch, given as the parameter `powerModeModel`. Its other settings changes (enhancement, prompt, language) are only logged as `ApplyPowerMode`.
- `Int32` truncation of process ids and window-number widths are not modelled; ids are unbounded integers.
- URLs are their path strings; `URL(string:)` is the oracle `parses`.
- Locale-aware `localizedCaseInsensitiveContains` is the oracle `matches` of `FilteredApps`. The display-name `<` of the language comparator is taken as lexicographic order of Unicode scalars, and its tie-break between equal display names is not modelled.
- A prompt id that is not a valid UUID string (which `UUID(uuidString:)` turns into nil when the form opens) is not modelled: ids are compared as strings.
- `loadInstalledApps`, which enumerates the filesystem, and the Delete button and `onChange` handlers of the form's body.
- UserDefaults: only the saved default model name (`savedModelName`) and the flags passed in are modelled.
- The `#if false` block of the OS-native service, which is compiled out.
- Other recording states of the recorder beyond the four the status display distinguishes.
- The order of calls that the source issues from concurrent tasks is the program order of the code.
