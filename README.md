# Majd Studio — a verified model of its core

Majd Studio is a browser front-end for Arabic voice-overs. The user picks a dialect, a voice type, a gender, a voice profile and six performance controls, and types a script. The studio can have a generative model rewrite the script. It then asks a text-to-speech model for audio. That audio comes back as base 64 text holding 16-bit PCM at 24 kHz, which the studio turns into a playable WAV `data:` URL. Generations, visits and dashboard figures are kept in a remote JSON bin.

This project models the sequential logic of that system in Dafny and proves what it promises:

- **`Bytes`, `Base64`, `AudioCodec`, `VoiceService`** (services/geminiService.ts)
  - `decode` is modelled by the strict, padded decoder of section 4 of RFC 4648 in place of `atob`, with the octets copied into a fresh array.
  - `decodeAudioData` reads little-endian int16 samples into a planar `AudioBuffer`. Channel `c` of frame `i` comes from sample `i*C + c`, scaled by 1/32768.
  - `audioBufferToWav` writes a 44-octet RIFF/WAVE header and the clamped, scaled, truncated samples through a `DataView` cursor, inside its `while`/`for` loops.
  - The audio half of `generateVoiceOver`: mono, 24 kHz, a WAV `data:` URL as in RFC 2397, and the duration.
  - `preprocessText`, which falls back to the input text.
  - The byte-level code is imperative Dafny: arrays, a cursor class, and loops with their invariants. Each method is proved against a function that describes the file it produces.
- **`Voices`** (constants.tsx)
  - The `STUDIO_CONTROLS`, `DIALECTS` and `VOICE_TYPES` tables.
  - The `getBaseVoiceForType` rule.
- **`Text`**: the JavaScript string operations the screen uses.
  - `trim`.
  - `Number.prototype.toString` on integers.
  - `padStart(2, '0')`.
- **`Studio`** (App.tsx)
  - The `selectedDialect` fallback and the `filteredProfiles` filter (de-duplicated by name).
  - The active-voice and base-voice choice, and `formatTime`.
  - A `StudioScreen` class whose methods are `handlePreprocess` and `handleGenerate`. They update the counter, the history, the error and the busy flags step by step.
- **`Cloud`** (services/apiService.ts)
  - `fetchRaw` normalisation.
  - The bounded prepend of `logSession` (30 sessions) and `saveRecord` (10 records), which rewrite the bin through a `CloudEngine` class.
  - `getUserRecords`, `getAllRecords` and `getGlobalStats`.

Samples are exact reals. Every `int16 / 32768` is exactly representable in a `Float32Array`, and a float32 sample times 32767 or 32768 is exact in a JavaScript number, so real arithmetic gives the browser's values.

Three facts about the audio and service code are worth stating outright:

- **Round-trip error.** The WAV writer clamps a sample to [-1, 1], scales negative values by 32768 and the others by 32767, then truncates toward zero. A sample written to WAV and read back is therefore within 2/32768 under the original and within 1/32768 over it. `AudioCodec.QuantizeError` proves that bound, and `AudioCodec.QuantizeDecoded` proves the exact int16 → float → int16 round trip: `x` for `x <= 0`, `x - 1` for `x > 0`.
- **Frame count.** When the buffer's frame count is not a multiple of its channel count, the WAV writer's `while` loop runs past the end of the `DataView`, which throws a `RangeError`. `AudioCodec.AudioBufferToWav` models that failure and proves it occurs exactly then.
- **Errors.** `preprocessText` catches every error and falls back to its input text; `generateVoiceOver` rethrows whatever fails. `VoiceService.PreprocessText` and `VoiceService.GenerateVoiceOver` state both.

One behaviour of the cloud store is easy to miss. A read of the bin that fails yields empty lists, and the two logging operations write the bin back anyway. A session or record saved after a failed read therefore replaces everything stored with the one new item. `Cloud.AfterLog` and `Cloud.AfterSave` state this.

## Model

| member | source | states |
|---|---|---|
| Bytes.Le16 | services/geminiService.ts:45 | the two octets `setUint16` stores are the value modulo 2^16, low octet first |
| Bytes.Le32 | services/geminiService.ts:46 | the four octets `setUint32` stores read back, little-endian, as the value modulo 2^32 |
| Bytes.Int16At | services/geminiService.ts:23 | an `Int16Array` element is in [-32768, 32767] and agrees modulo 2^16 with the unsigned value of its two octets |
| Bytes.Le16Read | services/geminiService.ts:45 | reading two stored octets back gives the stored value modulo 2^16 |
| Bytes.Le32Read | services/geminiService.ts:46 | reading four stored octets back gives the stored value modulo 2^32 |
| Bytes.Int16ReadBack | services/geminiService.ts:68 | an in-range value stored by `setInt16` reads back as itself through an `Int16Array` |
| Base64.Digit | services/geminiService.ts:6 | the alphabet character of each 6-bit value is decoded back to that value |
| Base64.Encode | services/geminiService.ts:81 | the base 64 text of a `data:` URL has a length that is a multiple of 4 and is empty only for no octets |
| Base64.Decode | services/geminiService.ts:6 | the strict decoder accepts only texts whose length is a multiple of 4, gives at most 3 octets per 4 characters, and gives none exactly for the empty text |
| Base64.Atob | services/geminiService.ts:6-7 | the binary string has one character per decoded octet, its code equal to the octet and below 256, and exists exactly when decoding succeeds |
| Base64.DecodeFull | services/geminiService.ts:6 | four characters decode to three octets exactly when all four are in the alphabet |
| Base64.DecodeEncode | services/geminiService.ts:77-83 | decoding the base 64 text of any octets gives those octets back |
| AudioCodec.Decode | services/geminiService.ts:5-13 | fails exactly when the strict decoder rejects the text; otherwise a fresh array whose octets are the decoded octets, one per binary-string character |
| AudioCodec.SampleValue | services/geminiService.ts:30 | a normalised sample lies in [-1, 32767/32768] and times 32768 is the int16 sample |
| AudioCodec.AudioBuffer.constructor | services/geminiService.ts:25 | a new buffer has the requested channels, length and rate, and is silent |
| AudioCodec.AudioBuffer.Duration | services/geminiService.ts:143 | the duration is positive and times the sample rate gives the frame count |
| AudioCodec.CreateBuffer | services/geminiService.ts:25 | `createBuffer` fails exactly for zero channels or zero frames, otherwise gives a fresh buffer of that shape |
| AudioCodec.PcmSample | services/geminiService.ts:29-30 | channel `c` of frame `i` is the normalised int16 at index `i*C + c`, which lies inside the payload |
| AudioCodec.DecodeAudioData | services/geminiService.ts:16-34 | fails exactly for zero channels or fewer than two octets; otherwise the buffer has ⌊n/2⌋/C frames, and every channel sample is the de-interleaved, normalised PCM sample |
| AudioCodec.Clamp | services/geminiService.ts:66 | the clamped sample lies in [-1, 1] and equals the sample when it already did |
| AudioCodec.Trunc | services/geminiService.ts:68 | `setInt16`'s conversion truncates toward zero: down for non-negative values, up for negative ones |
| AudioCodec.Scale | services/geminiService.ts:66-67 | the scaled sample lies in [-32768, 32767] |
| AudioCodec.Quantize | services/geminiService.ts:66-68 | the stored integer fits in 16 bits, saturates at -32768 and 32767, and keeps the sign of the sample |
| AudioCodec.WithSamples | services/geminiService.ts:63-73 | each written sample adds two octets after the header |
| AudioCodec.WavHeader | services/geminiService.ts:48-60 | the header is 44 octets |
| AudioCodec.WavFile | services/geminiService.ts:39 | the file is 44 octets plus two per sample |
| AudioCodec.Interleaved | services/geminiService.ts:62-72 | the interleaved samples number frames times channels |
| AudioCodec.ByteCursor.constructor | services/geminiService.ts:40-43 | a fresh view of the file length, with the cursor at 0 and nothing written |
| AudioCodec.ByteCursor.SetUint16 | services/geminiService.ts:45 | appends the two little-endian octets of the value and advances the cursor by 2 |
| AudioCodec.ByteCursor.SetUint32 | services/geminiService.ts:46 | appends the four little-endian octets of the value and advances the cursor by 4 |
| AudioCodec.ByteCursor.SetInt16 | services/geminiService.ts:68-69 | appends the two octets of the truncated sample and advances the cursor by 2 |
| AudioCodec.WriteRiffDescriptor | services/geminiService.ts:48-50 | writes "RIFF", the file length less 8 and "WAVE" |
| AudioCodec.WriteFmtChunkHead | services/geminiService.ts:51-54 | writes "fmt ", chunk size 16, format 1 and the channel count |
| AudioCodec.WriteFmtChunkRates | services/geminiService.ts:55-58 | writes the sample rate, the byte rate, the block align and 16 bits per sample |
| AudioCodec.WriteDataChunkHeader | services/geminiService.ts:59-60 | writes "data" and `length - pos - 4` with the cursor at 40, ending at 44 |
| AudioCodec.WriteHeader | services/geminiService.ts:48-60 | the thirteen header stores leave exactly the 44-octet header, with the cursor at 44 |
| AudioCodec.WriteFrame | services/geminiService.ts:65-70 | one frame writes each channel's quantised sample in order, and fails exactly when the frame lies past the buffer's end |
| AudioCodec.WritePass | services/geminiService.ts:64-72 | one pass of the `while` loop writes C frames, and fails exactly when they do not all fit |
| AudioCodec.WriteSamples | services/geminiService.ts:63-73 | the loop fails exactly when the frame count is not a multiple of the channel count; otherwise it writes every interleaved sample in order and ends at the end of the view |
| AudioCodec.AudioBufferToWav | services/geminiService.ts:37-75 | fails exactly when frames are not a multiple of channels; otherwise a fresh array holding exactly the WAV file of the buffer's interleaved samples |
| AudioCodec.WithSamplesPrefix | services/geminiService.ts:63-73 | writing samples leaves the header untouched |
| AudioCodec.WithSamplesAt | services/geminiService.ts:68-69 | sample `k` occupies the two octets at header length + 2k |
| AudioCodec.Le32Octets | services/geminiService.ts:46 | a 32-bit value given by its four octets is stored as those octets, low first |
| AudioCodec.TagsSpellNames | services/geminiService.ts:48-59 | the four tag constants, stored little-endian, spell "RIFF", "WAVE", "fmt " and "data" in ASCII |
| AudioCodec.WavRiffLayout | services/geminiService.ts:48-50 | octets 0-11 of the file are "RIFF", the file size less 8, "WAVE" |
| AudioCodec.WavFormatLayout | services/geminiService.ts:51-54 | octets 12-23 are "fmt ", 16, format 1 and the channel count |
| AudioCodec.WavRatesLayout | services/geminiService.ts:55-58 | octets 24-35 are the rate, rate × 2 × channels, channels × 2 and 16 |
| AudioCodec.WavDataLayout | services/geminiService.ts:59-60 | octets 36-43 are "data" and the sample data size, 2 × frames × channels |
| AudioCodec.WavSampleAt | services/geminiService.ts:63-73 | data sample `k`, read at `Int16Array` index 22 + k, is the quantised sample `k` |
| AudioCodec.QuantizeDecoded | services/geminiService.ts:30-67 | an int16 decoded and re-encoded gives itself when ≤ 0 and one less when > 0 |
| AudioCodec.QuantizeError | services/geminiService.ts:66-68 | for a sample in [-1, 1] the stored integer lies within 2 below and 1 above the sample times 32768 |
| VoiceService.PreprocessText | services/geminiService.ts:89-104 | the rewritten text when the call succeeds with a non-empty text, otherwise the input text; empty only when both are |
| VoiceService.DataUrl | services/geminiService.ts:77-83 | the URL starts with `data:audio/wav;base64,` and the rest decodes to the WAV file |
| VoiceService.MonoSamples | services/geminiService.ts:23-31 | the mono samples are the payload's int16 values over 32768, one per two octets |
| VoiceService.GenerateVoiceOver | services/geminiService.ts:127-144 | succeeds exactly when a non-empty payload that the strict decoder accepts holds at least one sample; the URL then carries the mono 24 kHz WAV of the payload, and the duration times 24000 is the sample count |
| VoiceService.MonoDuration | services/geminiService.ts:143 | a mono 24 kHz buffer of n octets lasts ⌊n/2⌋/24000 seconds |
| VoiceService.MonoInterleaved | services/geminiService.ts:136 | a decoded mono buffer interleaves to the payload's samples in order |
| VoiceService.MonoWavSample | services/geminiService.ts:30-68 | each payload sample reappears at its place in the WAV data, unchanged when ≤ 0 and one lower when > 0 |
| Types.VoiceNameText | types.ts:2-8 | each prebuilt voice has its enum string |
| Types.VoiceNameTextsDistinct | types.ts:2-8 | no two prebuilt voices share an enum string |
| Voices.BaseVoiceForType | constants.tsx:222-227 | the voice is always Kore, Charon or Fenrir |
| Voices.BaseVoiceIsPrebuilt | constants.tsx:222-227 | the voice is the string of one of the prebuilt voices Kore, Charon, Fenrir |
| Voices.BaseVoiceCases | constants.tsx:223-226 | Kore exactly for a female gender or the cartoon type; Charon exactly for a non-female elderly voice; Fenrir otherwise |
| Voices.FemaleIgnoresType | constants.tsx:223 | for a female gender the type does not matter: always Kore |
| Voices.Groups | constants.tsx:86-135 | there are six control groups |
| Voices.Labels | constants.tsx:86-135 | a group's labels are its options' labels, in order |
| Voices.ControlsHaveThreeOptions | constants.tsx:86-135 | every control group has exactly three options with distinct labels |
| Voices.FlatProfiles | App.tsx:514 | `flatMap` over the dialects holds exactly the profiles of some dialect |
| Voices.ConstantsDiffer | constants.tsx:218-220 | the three voice types are distinct, and the adult and cartoon types are in `VOICE_TYPES` |
| Voices.FirstDialectsWellTyped | constants.tsx:137-179 | the Egyptian, Saudi, Levantine and Iraqi profiles have declared types other than elderly, and are male or female |
| Voices.LastDialectsWellTyped | constants.tsx:180-215 | the same for the Algerian, Moroccan, Tunisian and Fusha profiles |
| Voices.ProfileTypes | constants.tsx:137-220 | every profile's type is in `VOICE_TYPES` and is not elderly, and its gender is male or female |
| Text.TrimStart | App.tsx:520 | removes exactly the leading white space |
| Text.TrimEnd | App.tsx:520 | removes exactly the trailing white space |
| Text.Trim | App.tsx:530 | `trim()` is no longer than the text and neither starts nor ends with white space |
| Text.TrimIsMiddle | App.tsx:530 | the trimmed text is the contiguous part of the text after its leading white space |
| Text.TrimSpaceAfter | App.tsx:530 | everything after the trimmed text is white space |
| Text.TrimEmptyIffBlank | App.tsx:520 | `trim()` gives the empty text exactly when every character is white space |
| Text.Digits | App.tsx:580 | a non-empty digit text without a leading zero, of one digit exactly below 10 |
| Text.Decimal | App.tsx:580 | `toString` of an integer: the digits, after a minus sign when negative |
| Text.Pad2 | App.tsx:580 | `padStart(2, '0')` keeps texts of two or more characters and left-pads shorter ones with zeros to two |
| Text.DigitsRoundTrip | App.tsx:580 | reading back the digits of a number gives the number |
| Text.Pad2Value | App.tsx:580 | zero-padded digits still read back as the number |
| Studio.FindDialect | App.tsx:494 | a found dialect is in the table and has the id |
| Studio.FindDialectFirst | App.tsx:494 | `find` fails exactly when no dialect has the id, and otherwise finds the first one with it |
| Studio.SelectedDialect | App.tsx:494 | the selected dialect is in the table; it has the id when some dialect does, and is `DIALECTS[0]` when none does |
| Studio.FindIndexByName | App.tsx:515 | `findIndex` gives -1 or an index whose entry has the name |
| Studio.FindIndexByNameFirst | App.tsx:515 | the index found is the first with the name, and -1 exactly when none has it |
| Studio.GenderValue | App.tsx:516 | "male" exactly for the male label, "female" otherwise |
| Studio.FindIndexIsFirst | App.tsx:515 | the de-duplication test `findIndex(...) === index` holds exactly when the entry is the first with its name |
| Studio.KeptIndicesAccepted | App.tsx:514-517 | every kept index is accepted by the filter callback |
| Studio.KeptIndicesIncrease | App.tsx:514-517 | the kept indices increase |
| Studio.KeptIndicesComplete | App.tsx:514-517 | every index the callback accepts is kept |
| Studio.FilterProfiles | App.tsx:514-517 | every filtered profile has the selected type and the gender of the gender choice |
| Studio.FilterAtKeptIndices | App.tsx:514-517 | the filtered profiles are exactly the entries at the accepted indices, in order |
| Studio.SourceProfiles | App.tsx:514 | every dialect's profiles for the elderly type, otherwise the selected dialect's |
| Studio.FilteredProfiles | App.tsx:514-517 | every offered profile has the selected type and gender |
| Studio.FilteredNamesDistinct | App.tsx:515 | no two offered profiles share a name |
| Studio.FilteredIsSubsequence | App.tsx:514-515 | the offered profiles sit at increasing positions of the source list, each at the first position of its name |
| Studio.FilterKeepsAccepted | App.tsx:514-517 | every entry that is first with its name and of the selected type and gender is offered |
| Studio.NoEntryOfTypeFiltersEmpty | App.tsx:516 | a list with no entry of the selected type filters to nothing |
| Studio.ElderlyOffersNoProfile | App.tsx:514-517 | with the tables as declared, the elderly type offers no profile |
| Studio.ActiveVoice | App.tsx:533 | none exactly when nothing is offered; otherwise the first offered profile with the selected name if there is one, else the first offered profile |
| Studio.VoiceGender | App.tsx:535 | the active profile's gender when it is not empty; the gender choice's value when there is no active profile or its gender is empty |
| Studio.BaseVoice | App.tsx:535 | the voice asked for is Kore, Charon or Fenrir |
| Studio.ElderlyBaseVoice | App.tsx:535 | for the elderly type: Charon for the male choice, Kore otherwise |
| Studio.BaseVoiceFollowsChoice | App.tsx:533-535 | the voice asked for is `getBaseVoiceForType` of the chosen type and gender, whatever profile is active |
| Studio.Remainder60 | App.tsx:579 | `% 60` keeps the sign of the time and is below 60 in size |
| Studio.SecondsBelowSixty | App.tsx:578-579 | for a non-negative time the seconds are below 60, and minutes × 60 + seconds is the whole number of seconds |
| Studio.Pad2TwoDigits | App.tsx:580 | padded digits of a number below 100 are two characters |
| Studio.ClockReadsBack | App.tsx:580 | a clock text splits at its colon into digit texts that read back as the minutes and the seconds |
| Studio.FormatTime | App.tsx:577 | a NaN time (`None`) is shown as "00:00" |
| Studio.FormatTimeIsClock | App.tsx:576-581 | a non-negative time is shown as the clock of its whole minutes and remaining whole seconds |
| Studio.FormatTimeReadsBack | App.tsx:576-581 | the text shown for a non-negative time reads back as m:ss with ss below 60 and m × 60 + ss the whole seconds |
| Studio.DefaultControlsOffered | App.tsx:480 | each initial control is a label of its group |
| Studio.ErrorText | App.tsx:520-556 | every error the screen shows has a message |
| Studio.ErrorTextsDistinct | App.tsx:520-556 | the four errors have four different messages |
| Studio.TextToUse | App.tsx:529 | the processed text unless it is empty, in which case the input text |
| Studio.StudioScreen.constructor | App.tsx:470-487 | the screen opens with the saved counter and history, the first dialect and type, male, no voice, the initial controls and no error |
| Studio.StudioScreen.Preprocess | App.tsx:519-526 | calls the service exactly when the input is not blank; a blank input only sets the error; success stores the rewritten text, failure sets the error; nothing else changes |
| Studio.StudioScreen.ChosenVoice | App.tsx:533-535 | the voice is `getBaseVoiceForType` of the chosen type and gender, and the title is the selected dialect's |
| Studio.StudioScreen.Generate | App.tsx:528-557 | asks for audio exactly when the text to use is not blank, with that text and the base voice; a blank text only sets the error; the counter and the history length change together, except that a counter write that throws leaves the counter one ahead |
| Studio.StudioScreen.Finish | App.tsx:536-556 | success counts one more generation; once the counter is stored the entry is appended at the end of the history, and once the history is stored too it becomes the current result and plays; a failed call only sets the error, and a storage write that throws sets it with no current result; generating ends either way |
| Cloud.FetchRaw | services/apiService.ts:12-31 | a failed read gives two empty lists; a field that is not an array reads as an empty list; an array field is read as stored |
| Cloud.FetchPushed | services/apiService.ts:36-52 | reading back a bin that was written gives exactly what was written |
| Cloud.PrependBounded | services/apiService.ts:69 | the new item first, then the old items in order, at most n in all |
| Cloud.Reversed | services/apiService.ts:69 | the reversed list has each item at the mirrored position |
| Cloud.KeepsNewest | services/apiService.ts:69 | after any number of logged items the list holds the newest n, newest first, then the older items in order |
| Cloud.Stamped | services/apiService.ts:77-83 | the saved record has id `rec_` + time, the time, status success and engine "Majd Cloud Direct v9", and keeps the caller's other fields |
| Cloud.StampOverrides | services/apiService.ts:77-83 | the caller's id, time, status and engine have no effect on the saved record |
| Cloud.Referrer | services/apiService.ts:64 | the referrer, or "Direct" when it is empty |
| Cloud.NewSession | services/apiService.ts:57-67 | the new session has id `sess_` + time, the user, start and last activity at the time, "Global"/"WW", the referrer or "Direct", "WebBrowser" and "Standard" |
| Cloud.AfterLog | services/apiService.ts:69 | the records are kept as read; the new session comes first, followed by the sessions read, up to 30; a failed read leaves only the new session |
| Cloud.AfterSave | services/apiService.ts:86 | the sessions are kept as read; the new record comes first, followed by the records read, up to 10; a failed read leaves only the new record |
| Cloud.UserRecords | services/apiService.ts:96 | filtering gives at most as many records as are stored |
| Cloud.UserRecordsExact | services/apiService.ts:96 | each of the user's records occurs as often as it is stored, and no other record occurs |
| Cloud.UserRecordsMembers | services/apiService.ts:96 | a record is listed exactly when it is stored and belongs to the user |
| Cloud.UserRecordsAppend | services/apiService.ts:96 | filtering a concatenation filters each part, so the stored order is kept |
| Cloud.SavedRecordListedFirst | services/apiService.ts:74-97 | a record just saved and read back is the first of its user's records |
| Cloud.UserIds | services/apiService.ts:106 | the set holds exactly the sessions' user ids and is no larger than the session list |
| Cloud.UserCount | services/apiService.ts:106 | between 1 and the session count (at least 1); the number of distinct users when there are sessions |
| Cloud.SingleUser | services/apiService.ts:106 | the count is 1 exactly when all sessions share a user, or there are none |
| Cloud.DurationOrZero | services/apiService.ts:111 | a missing duration counts as 0 and a stored one as itself |
| Cloud.TotalDuration | services/apiService.ts:111 | a total over records without durations is 0, and over one record with a duration it is that duration |
| Cloud.TotalDurationAppend | services/apiService.ts:111 | the duration total of a concatenation is the sum of the totals |
| Cloud.TotalDurationPrepend | services/apiService.ts:111 | a record in front adds its duration, or 0 when it has none |
| Cloud.TotalDurationBounds | services/apiService.ts:111 | with no negative durations the total is non-negative and at least each single duration |
| Cloud.Stats | services/apiService.ts:104-119 | the user count, the record count, the duration total, records per user, success rate 100, an average session duration of 5 and empty top lists |
| Cloud.PerUser | services/apiService.ts:113 | records per user times users gives the record count, and lies between 0 and the record count |
| Cloud.CloudEngine.constructor | services/apiService.ts:122 | the engine starts over the given bin |
| Cloud.CloudEngine.PushToCloud | services/apiService.ts:36-52 | the bin becomes the data exactly when the write is accepted, and the answer says whether it was |
| Cloud.CloudEngine.LogSession | services/apiService.ts:54-72 | returns the new session; an accepted write leaves the bin holding the records read and the new session ahead of at most 29 of the sessions read; a refused write changes nothing |
| Cloud.CloudEngine.SaveRecord | services/apiService.ts:74-92 | returns the stamped record exactly when the write is accepted, otherwise the "Failed to persist" error; an accepted write leaves the stamped record ahead of at most 9 of the records read |
| Cloud.CloudEngine.GetUserRecords | services/apiService.ts:94-97 | exactly the records read that belong to the user, in stored order |
| Cloud.CloudEngine.GetAllRecords | services/apiService.ts:99-102 | the stored records array, or nothing when the read fails or the field is not an array (`forceSync` is the same call) |
| Cloud.CloudEngine.GetGlobalStats | services/apiService.ts:104-119 | the figures of the data read; a failed read shows 1 user, 0 records and 0 seconds |

## Left out

- The calls to the generative models (services/geminiService.ts:91-125) are not modelled. Their outcomes are parameters: the rewritten text, the base 64 payload, or the service's answer to a generation.
- The prompt and the `performanceNote` text sent with them (App.tsx:534, services/geminiService.ts:92, 112) are left out. So is `JSON.stringify` of the controls. None of them affects any state.
- The jsonbin `fetch` GET and PUT (services/apiService.ts:14-20, 38-46) are not modelled. Whether the read reaches the bin and whether the write is accepted are parameters. A body that is not JSON counts as a failed read.
- `AudioContext` construction, `Blob`, `FileReader` and playback (`audio.play()`, the time and `ended` events, `togglePlay`, `playFromHistory`) are not modelled. The data URL is specified as `data:audio/wav;base64,` followed by the base 64 text of the file, per RFC 2397.
- `localStorage` and `sessionStorage` are not modelled as stores. The screen's constructor takes the saved counter and history. What is stored by the writes of App.tsx:540 and 552 is not modelled; whether each write succeeds or throws (a full quota, say) is a parameter of `Studio.StudioScreen.Generate` and `Studio.StudioScreen.Finish`.
- `Math.random` and `Date.now()` are parameters (an id, a time). `logSession` reads the clock three times (its id, start time and last-active time) and `saveRecord` twice (services/apiService.ts:79-80: its id and its timestamp), so the id and the time may differ by a millisecond. The model uses one instant for all the reads of one call, in `Cloud.NewSession` and `Cloud.Stamped`.
- IEEE floating point is not modelled: numbers are exact reals.
  - `formatTime`'s NaN case is `None`, and infinities are not modelled.
  - `avg_voices_per_user` is an exact quotient.
  - A NaN duration, which `|| 0` would also turn into 0, is not modelled.
- Studio.StudioScreen.Generate: the service's answer is taken to be the audio URL string, as App.tsx:536 and 547 use it. The service itself returns `{dataUrl, duration}` (services/geminiService.ts:109), and App.tsx imports `savioService` while the module exports `majdService`. That glue is not modelled as a typed composition.
- `VOICE_FIELDS` is not part of this model. The screen takes the field title as a constructor parameter.
- The display-only parts of the tables are not modelled: flags, dialect descriptions, profile descriptions and `CATEGORY_STYLES`.
- Rendering, effects, timers, the intro, the dashboard and the mock statistics of App.tsx are not modelled.
- Cloud.CloudEngine.LogSession: the model has a single writer. The bin is shared by every visitor's browser, and the source reads it, changes it and writes it back (services/apiService.ts:54-71) with no lock or version check, so a write by another browser between this call's read and its PUT is lost. The model's read is the engine's own bin, so that lost update does not occur in it.
- Cloud.CloudEngine.SaveRecord: the same single-writer assumption (services/apiService.ts:74-91). A record or session written by another browser between the read and the PUT is overwritten in the source and cannot be lost in the model.
- Base64.Decode: white space inside the text and missing `=` padding, which the browser's `atob` accepts (`atob("QQ")` is `"A"`), are rejected here, and so `AudioCodec.Decode` and `VoiceService.GenerateVoiceOver` fail on such a payload where the browser would decode it. The strict decoder of section 4 of RFC 4648 is modelled instead of the forgiving one.
- AudioCodec.CreateBuffer: the channel count and the sample rate are required to be in the ranges every Web Audio implementation accepts (at most 32 channels, 8000-96000 Hz). Outside those ranges the browser's own limits decide, and the model does not say what happens.
- AudioCodec.DecodeAudioData: the payload's sample count must be a multiple of the channel count. `Int16Array` and the fractional `frameCount` of a non-multiple are not modelled, and the only caller decodes mono.
