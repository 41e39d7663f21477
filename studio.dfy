/**
 * The decision logic of the studio screen (App.tsx): which dialect is
 * selected, which voice profiles are offered, which voice a generation
 * uses, how a playing time is displayed, and how the preprocess and
 * generate handlers update the screen's state.
 */
module Studio {
  import opened Wrappers
  import opened Types
  import opened Voices
  import opened Text

  /** `ds.find(d => d.id === id)`: the first dialect with that id. */
  function FindDialect(ds: seq<DialectInfo>, id: string): (r: Option<DialectInfo>)
    ensures r.Some? ==> r.value in ds && r.value.id == id
  {
    if ds == [] then None
    else if ds[0].id == id then Some(ds[0])
    else FindDialect(ds[1..], id)
  }

  /** `find` fails exactly when no dialect has the id, and otherwise finds the first one with it. */
  lemma {:induction false} FindDialectFirst(ds: seq<DialectInfo>, id: string)
    ensures FindDialect(ds, id).None? <==> forall i :: 0 <= i < |ds| ==> ds[i].id != id
    ensures FindDialect(ds, id).Some? ==>
              exists i :: 0 <= i < |ds| && ds[i] == FindDialect(ds, id).value && forall j :: 0 <= j < i ==> ds[j].id != id
    decreases |ds|
  {
    if ds != [] && ds[0].id != id {
      FindDialectFirst(ds[1..], id);
      assert forall i :: 1 <= i < |ds| ==> ds[i] == ds[1..][i - 1];
      if FindDialect(ds, id).Some? {
        var i :| 0 <= i < |ds[1..]| && ds[1..][i] == FindDialect(ds, id).value && forall j :: 0 <= j < i ==> ds[1..][j].id != id;
        assert ds[i + 1] == FindDialect(ds, id).value;
      }
    }
  }

  /** `selectedDialect`: the dialect with the selected id, falling back to the first dialect of the table. */
  function SelectedDialect(dialects: seq<DialectInfo>, id: string): (d: DialectInfo)
    requires |dialects| > 0
    ensures d in dialects
    ensures (exists i :: 0 <= i < |dialects| && dialects[i].id == id) ==> d.id == id
    ensures (forall i :: 0 <= i < |dialects| ==> dialects[i].id != id) ==> d == dialects[0]
  {
    var found := FindDialect(dialects, id);
    FindDialectFirst(dialects, id);
    if found.Some? then found.value else dialects[0]
  }

  /** `self.findIndex(t => t.name === name)`: the first index with that name, or -1. */
  function FindIndexByName(self: seq<VoiceProfile>, name: string): (i: int)
    ensures -1 <= i < |self|
    ensures i >= 0 ==> self[i].name == name
  {
    if self == [] then -1
    else if self[0].name == name then 0
    else
      var k := FindIndexByName(self[1..], name);
      if k == -1 then -1 else k + 1
  }

  /** The index found is the first with the name, and -1 means that no entry has it. */
  lemma {:induction false} FindIndexByNameFirst(self: seq<VoiceProfile>, name: string)
    ensures FindIndexByName(self, name) >= 0 ==> forall j :: 0 <= j < FindIndexByName(self, name) ==> self[j].name != name
    ensures FindIndexByName(self, name) == -1 <==> forall j :: 0 <= j < |self| ==> self[j].name != name
    decreases |self|
  {
    if self != [] && self[0].name != name {
      FindIndexByNameFirst(self[1..], name);
      assert forall j :: 1 <= j < |self| ==> self[j] == self[1..][j - 1];
    }
  }

  /** The profile gender the gender choice stands for: "male" for the male label, "female" for anything else. */
  function GenderValue(selectedGender: string): (g: string)
    ensures g == Male <==> selectedGender == MaleLabel
    ensures g == Male || g == Female
  {
    if selectedGender == MaleLabel then Male else Female
  }

  /** No entry before `index` has the name of the entry at `index`. */
  predicate FirstWithName(self: seq<VoiceProfile>, index: nat)
    requires index < |self|
  {
    forall j :: 0 <= j < index ==> self[j].name != self[index].name
  }

  /** The callback's test `self.findIndex(t => t.name === v.name) === index` holds exactly when the entry is the first with its name. */
  lemma FindIndexIsFirst(self: seq<VoiceProfile>, index: nat)
    requires index < |self|
    ensures FindIndexByName(self, self[index].name) == index <==> FirstWithName(self, index)
  {
    var name := self[index].name;
    var found := FindIndexByName(self, name);
    FindIndexByNameFirst(self, name);
    if FirstWithName(self, index) {
      assert found != -1;
    }
  }

  /** The filter callback at `index` of `self`: the first entry with its name, of the selected type and gender. */
  predicate Keeps(self: seq<VoiceProfile>, index: nat, selectedType: string, selectedGender: string)
    requires index < |self|
  {
    && FirstWithName(self, index)
    && self[index].voiceType == selectedType
    && self[index].gender == GenderValue(selectedGender)
  }

  /** The indices below `n` whose entries the filter callback accepts, in increasing order. */
  function KeptIndices(self: seq<VoiceProfile>, n: nat, selectedType: string, selectedGender: string): (idx: seq<nat>)
    requires n <= |self|
    ensures forall i :: 0 <= i < |idx| ==> idx[i] < n
  {
    if n == 0 then []
    else KeptIndices(self, n - 1, selectedType, selectedGender) + if Keeps(self, n - 1, selectedType, selectedGender) then [n - 1] else []
  }

  /** Each index of `idx` is an index of `self` whose entry the callback accepts. */
  predicate AllAccepted(self: seq<VoiceProfile>, idx: seq<nat>, selectedType: string, selectedGender: string)
  {
    forall i :: 0 <= i < |idx| ==> idx[i] < |self| && Keeps(self, idx[i], selectedType, selectedGender)
  }

  /** The indices strictly increase. */
  predicate Increasing(idx: seq<nat>)
  {
    forall i, j :: 0 <= i < j < |idx| ==> idx[i] < idx[j]
  }

  /** `r` lists the entries of `self` at the indices `idx`, in that order. */
  predicate EntriesAt(self: seq<VoiceProfile>, idx: seq<nat>, r: seq<VoiceProfile>)
  {
    |r| == |idx| && forall i :: 0 <= i < |r| ==> idx[i] < |self| && r[i] == self[idx[i]]
  }

  /** No two profiles of the list share a name. */
  predicate NamesDistinct(ps: seq<VoiceProfile>)
  {
    forall i, j :: 0 <= i < j < |ps| ==> ps[i].name != ps[j].name
  }

  /** Every kept index is accepted by the callback. */
  lemma {:induction false} KeptIndicesAccepted(self: seq<VoiceProfile>, n: nat, selectedType: string, selectedGender: string)
    requires n <= |self|
    ensures AllAccepted(self, KeptIndices(self, n, selectedType, selectedGender), selectedType, selectedGender)
    decreases n
  {
    if n > 0 {
      KeptIndicesAccepted(self, n - 1, selectedType, selectedGender);
      var prev := KeptIndices(self, n - 1, selectedType, selectedGender);
      var idx := KeptIndices(self, n, selectedType, selectedGender);
      if Keeps(self, n - 1, selectedType, selectedGender) {
        assert idx == prev + [n - 1];
        assert forall i :: 0 <= i < |prev| ==> idx[i] == prev[i];
      } else {
        assert idx == prev;
      }
    }
  }

  /** The kept indices increase. */
  lemma {:induction false} KeptIndicesIncrease(self: seq<VoiceProfile>, n: nat, selectedType: string, selectedGender: string)
    requires n <= |self|
    ensures Increasing(KeptIndices(self, n, selectedType, selectedGender))
    decreases n
  {
    if n > 0 {
      KeptIndicesIncrease(self, n - 1, selectedType, selectedGender);
      var prev := KeptIndices(self, n - 1, selectedType, selectedGender);
      var idx := KeptIndices(self, n, selectedType, selectedGender);
      if Keeps(self, n - 1, selectedType, selectedGender) {
        assert idx == prev + [n - 1];
        assert forall i :: 0 <= i < |prev| ==> idx[i] == prev[i];
      } else {
        assert idx == prev;
      }
    }
  }

  /** Every index below `n` that the callback accepts is kept. */
  lemma {:induction false} KeptIndicesComplete(self: seq<VoiceProfile>, n: nat, selectedType: string, selectedGender: string)
    requires n <= |self|
    ensures forall k :: 0 <= k < n && Keeps(self, k, selectedType, selectedGender) ==> k in KeptIndices(self, n, selectedType, selectedGender)
    decreases n
  {
    if n > 0 {
      KeptIndicesComplete(self, n - 1, selectedType, selectedGender);
    }
  }

  /** `self.filter(callback)` over the first `n` entries: the accepted entries, in order. */
  function FilterProfiles(self: seq<VoiceProfile>, n: nat, selectedType: string, selectedGender: string): (r: seq<VoiceProfile>)
    requires n <= |self|
    ensures forall i :: 0 <= i < |r| ==> r[i].voiceType == selectedType && r[i].gender == GenderValue(selectedGender)
  {
    if n == 0 then []
    else FilterProfiles(self, n - 1, selectedType, selectedGender) + if Keeps(self, n - 1, selectedType, selectedGender) then [self[n - 1]] else []
  }

  /** The filtered entries are the entries at the kept indices. */
  lemma {:induction false} FilterAtKeptIndices(self: seq<VoiceProfile>, n: nat, selectedType: string, selectedGender: string)
    requires n <= |self|
    ensures EntriesAt(self, KeptIndices(self, n, selectedType, selectedGender), FilterProfiles(self, n, selectedType, selectedGender))
    decreases n
  {
    if n > 0 {
      FilterAtKeptIndices(self, n - 1, selectedType, selectedGender);
      var prev := FilterProfiles(self, n - 1, selectedType, selectedGender);
      var r := FilterProfiles(self, n, selectedType, selectedGender);
      var prevIdx := KeptIndices(self, n - 1, selectedType, selectedGender);
      var idx := KeptIndices(self, n, selectedType, selectedGender);
      if Keeps(self, n - 1, selectedType, selectedGender) {
        assert r == prev + [self[n - 1]] && idx == prevIdx + [n - 1];
        assert forall i :: 0 <= i < |prev| ==> r[i] == prev[i] && idx[i] == prevIdx[i];
      } else {
        assert r == prev && idx == prevIdx;
      }
    }
  }

  /** The list the profiles are chosen from: every dialect's profiles for the elderly type, otherwise the selected dialect's. */
  function SourceProfiles(dialects: seq<DialectInfo>, selectedType: string, dialect: DialectInfo): (ps: seq<VoiceProfile>)
    ensures selectedType == Elderly ==> ps == FlatProfiles(dialects)
    ensures selectedType != Elderly ==> ps == dialect.profiles
  {
    if selectedType == Elderly then FlatProfiles(dialects) else dialect.profiles
  }

  /** `filteredProfiles`. */
  function FilteredProfiles(dialects: seq<DialectInfo>, selectedType: string, selectedGender: string, dialect: DialectInfo): (r: seq<VoiceProfile>)
    ensures forall i :: 0 <= i < |r| ==> r[i].voiceType == selectedType && r[i].gender == GenderValue(selectedGender)
  {
    var source := SourceProfiles(dialects, selectedType, dialect);
    FilterProfiles(source, |source|, selectedType, selectedGender)
  }

  /** No two filtered profiles share a name: a later entry with an earlier entry's name is not the first with it. */
  lemma FilteredNamesDistinct(self: seq<VoiceProfile>, selectedType: string, selectedGender: string)
    ensures NamesDistinct(FilterProfiles(self, |self|, selectedType, selectedGender))
  {
    var idx := KeptIndices(self, |self|, selectedType, selectedGender);
    KeptIndicesAccepted(self, |self|, selectedType, selectedGender);
    KeptIndicesIncrease(self, |self|, selectedType, selectedGender);
    FilterAtKeptIndices(self, |self|, selectedType, selectedGender);
    var r := FilterProfiles(self, |self|, selectedType, selectedGender);
    forall i, j | 0 <= i < j < |r|
      ensures r[i].name != r[j].name
    {
      assert FirstWithName(self, idx[j]);
      assert idx[i] < idx[j];
    }
  }

  /**
   * The filtered profiles are a subsequence of the list: they sit at
   * increasing positions of it, each at the position `findIndex` gives
   * for its name.
   */
  lemma FilteredIsSubsequence(self: seq<VoiceProfile>, selectedType: string, selectedGender: string)
    ensures exists idx: seq<nat> ::
              && EntriesAt(self, idx, FilterProfiles(self, |self|, selectedType, selectedGender))
              && Increasing(idx)
              && forall i :: 0 <= i < |idx| && idx[i] < |self| ==> FindIndexByName(self, self[idx[i]].name) == idx[i]
  {
    var idx := KeptIndices(self, |self|, selectedType, selectedGender);
    KeptIndicesAccepted(self, |self|, selectedType, selectedGender);
    KeptIndicesIncrease(self, |self|, selectedType, selectedGender);
    FilterAtKeptIndices(self, |self|, selectedType, selectedGender);
    forall i | 0 <= i < |idx| && idx[i] < |self|
      ensures FindIndexByName(self, self[idx[i]].name) == idx[i]
    {
      FindIndexIsFirst(self, idx[i]);
    }
  }

  /** Every entry that is the first with its name and has the selected type and gender is kept. */
  lemma FilterKeepsAccepted(self: seq<VoiceProfile>, selectedType: string, selectedGender: string)
    ensures forall k :: 0 <= k < |self| && Keeps(self, k, selectedType, selectedGender) ==>
              self[k] in FilterProfiles(self, |self|, selectedType, selectedGender)
  {
    var idx := KeptIndices(self, |self|, selectedType, selectedGender);
    KeptIndicesComplete(self, |self|, selectedType, selectedGender);
    FilterAtKeptIndices(self, |self|, selectedType, selectedGender);
    var r := FilterProfiles(self, |self|, selectedType, selectedGender);
    forall k | 0 <= k < |self| && Keeps(self, k, selectedType, selectedGender)
      ensures self[k] in r
    {
      var i :| 0 <= i < |idx| && idx[i] == k;
      assert r[i] == self[k];
    }
  }

  /** A list none of whose first `n` entries has the selected type filters to nothing. */
  lemma {:induction false} NoEntryOfTypeFiltersEmpty(self: seq<VoiceProfile>, n: nat, selectedType: string, selectedGender: string)
    requires n <= |self|
    requires forall i :: 0 <= i < n ==> self[i].voiceType != selectedType
    ensures FilterProfiles(self, n, selectedType, selectedGender) == []
    decreases n
  {
    if n > 0 {
      NoEntryOfTypeFiltersEmpty(self, n - 1, selectedType, selectedGender);
      assert !Keeps(self, n - 1, selectedType, selectedGender);
    }
  }

  /** No profile is offered for the elderly type: every profile is of another type. */
  lemma ElderlyOffersNoProfile(selectedGender: string, dialect: DialectInfo)
    ensures FilteredProfiles(Dialects, Elderly, selectedGender, dialect) == []
  {
    ProfileTypes();
    var source := FlatProfiles(Dialects);
    NoEntryOfTypeFiltersEmpty(source, |source|, Elderly, selectedGender);
  }



  /** `activeVoice`: the first offered profile with the selected name, otherwise the first offered profile; `None` when nothing is offered. */
  function ActiveVoice(filtered: seq<VoiceProfile>, selectedVoiceName: string): (r: Option<VoiceProfile>)
    ensures r.None? <==> filtered == []
    ensures r.Some? ==> r.value in filtered
    ensures (exists p :: p in filtered && p.name == selectedVoiceName) ==> r.Some? && r.value.name == selectedVoiceName
    ensures (forall p :: p in filtered ==> p.name != selectedVoiceName) && filtered != [] ==> r == Some(filtered[0])
    ensures forall j :: (0 <= j < |filtered| && filtered[j].name == selectedVoiceName
                         && (forall k :: 0 <= k < j ==> filtered[k].name != selectedVoiceName)) ==> r == Some(filtered[j])
  {
    var i := FindIndexByName(filtered, selectedVoiceName);
    FindIndexByNameFirst(filtered, selectedVoiceName);
    if i >= 0 then Some(filtered[i])
    else if filtered == [] then None
    else Some(filtered[0])
  }

  /** `activeVoice?.gender || (selectedGender === 'ذكر' ? 'male' : 'female')`: the gender choice stands in for a missing profile or an empty gender. */
  function VoiceGender(active: Option<VoiceProfile>, selectedGender: string): (g: string)
    ensures active.Some? && active.value.gender != "" ==> g == active.value.gender
    ensures active.None? || active.value.gender == "" ==> g == GenderValue(selectedGender)
  {
    if active.Some? && active.value.gender != "" then active.value.gender else GenderValue(selectedGender)
  }

  /** The prebuilt voice a generation asks for. */
  function BaseVoice(dialects: seq<DialectInfo>, selectedType: string, selectedGender: string, dialect: DialectInfo, selectedVoiceName: string): (v: string)
    ensures v == "Kore" || v == "Charon" || v == "Fenrir"
  {
    var active := ActiveVoice(FilteredProfiles(dialects, selectedType, selectedGender, dialect), selectedVoiceName);
    BaseVoiceForType(selectedType, VoiceGender(active, selectedGender))
  }

  /** With the elderly type nothing is offered, so the gender choice alone decides: Charon for male, Kore otherwise. */
  lemma ElderlyBaseVoice(selectedGender: string, dialect: DialectInfo, selectedVoiceName: string)
    ensures BaseVoice(Dialects, Elderly, selectedGender, dialect, selectedVoiceName) == if selectedGender == MaleLabel then "Charon" else "Kore"
  {
    ElderlyOffersNoProfile(selectedGender, dialect);
  }

  /** An offered profile's gender is the chosen one, so the voice only depends on the type and the gender choice. */
  lemma BaseVoiceFollowsChoice(dialects: seq<DialectInfo>, selectedType: string, selectedGender: string, dialect: DialectInfo, selectedVoiceName: string)
    ensures BaseVoice(dialects, selectedType, selectedGender, dialect, selectedVoiceName) == BaseVoiceForType(selectedType, GenderValue(selectedGender))
  {
  }

  /** `x % 60` on numbers: `x` less 60 times the quotient truncated toward zero, so the remainder keeps the sign of `x`. */
  function Remainder60(x: real): (r: real)
    ensures x >= 0.0 ==> 0.0 <= r < 60.0
    ensures x <= 0.0 ==> -60.0 < r <= 0.0
  {
    var q := if x >= 0.0 then (x / 60.0).Floor else -((-x / 60.0).Floor);
    x - 60.0 * q as real
  }

  /** `formatTime`: "00:00" for NaN (`None`), otherwise the whole minutes and the whole seconds, each padded to two digits. */
  function FormatTime(time: Option<real>): (s: string)
    ensures time.None? ==> s == "00:00"
  {
    match time
    case None => "00:00"
    case Some(t) =>
      var mins := (t / 60.0).Floor;
      var secs := Remainder60(t).Floor;
      Pad2(Decimal(mins)) + ":" + Pad2(Decimal(secs))
  }

  /** For a time that is not negative the seconds part is below 60 and the two parts make up the whole seconds. */
  lemma SecondsBelowSixty(t: real)
    requires t >= 0.0
    ensures 0 <= Remainder60(t).Floor < 60
    ensures (t / 60.0).Floor * 60 + Remainder60(t).Floor == t.Floor
  {
    var m := (t / 60.0).Floor;
    var r := Remainder60(t);
    assert t == 60.0 * m as real + r;
    assert (60 * m) as real + r.Floor as real <= t < (60 * m) as real + r.Floor as real + 1.0;
  }

  /** The padded digits of a number below 100 are two characters. */
  lemma Pad2TwoDigits(n: nat)
    requires n < 100
    ensures |Pad2(Digits(n))| == 2
  {
    if n >= 10 {
      assert Digits(n) == Digits(n / 10) + [DigitChar(n % 10)];
    }
  }

  /** The two sides of a colon followed by two characters. */
  lemma ColonSplit(a: string, b: string)
    requires |b| == 2
    ensures var s := a + ":" + b;
      |s| == |a| + 3 && s[|s| - 3] == ':' && s[..|s| - 3] == a && s[|s| - 2..] == b
  {
  }

  /** The clock text of whole minutes and seconds below 60. */
  function Clock(m: nat, sec: nat): (s: string)
  {
    Pad2(Digits(m)) + ":" + Pad2(Digits(sec))
  }

  /** A clock text reads back as its minutes times 60 plus its seconds. */
  lemma ClockReadsBack(m: nat, sec: nat)
    requires sec < 60
    ensures |Clock(m, sec)| >= 5 && Clock(m, sec)[|Clock(m, sec)| - 3] == ':'
    ensures IsDigits(Clock(m, sec)[..|Clock(m, sec)| - 3]) && IsDigits(Clock(m, sec)[|Clock(m, sec)| - 2..])
    ensures DigitsValue(Clock(m, sec)[|Clock(m, sec)| - 2..]) == sec
    ensures DigitsValue(Clock(m, sec)[..|Clock(m, sec)| - 3]) == m
  {
    var mm, ss := Pad2(Digits(m)), Pad2(Digits(sec));
    Pad2Value(m);
    Pad2Value(sec);
    Pad2TwoDigits(sec);
    ColonSplit(mm, ss);
  }

  /** A time that is not negative is displayed as the clock of its whole minutes and remaining whole seconds. */
  lemma FormatTimeIsClock(t: real)
    requires t >= 0.0
    ensures (t / 60.0).Floor >= 0 && 0 <= Remainder60(t).Floor < 60
    ensures FormatTime(Some(t)) == Clock((t / 60.0).Floor, Remainder60(t).Floor)
  {
    SecondsBelowSixty(t);
    assert (t / 60.0).Floor >= 0 by {
      assert t / 60.0 >= 0.0;
    }
  }

  /**
   * A displayed time that is not negative reads back as the whole seconds
   * elapsed: minutes before the colon, two digits of seconds below 60
   * after it.
   */
  lemma FormatTimeReadsBack(t: real)
    requires t >= 0.0
    ensures var s := FormatTime(Some(t));
      && |s| >= 5 && s[|s| - 3] == ':'
      && IsDigits(s[..|s| - 3]) && IsDigits(s[|s| - 2..])
      && DigitsValue(s[|s| - 2..]) < 60
      && DigitsValue(s[..|s| - 3]) * 60 + DigitsValue(s[|s| - 2..]) == t.Floor
  {
    FormatTimeIsClock(t);
    SecondsBelowSixty(t);
    ClockReadsBack((t / 60.0).Floor, Remainder60(t).Floor);
  }

  /** An entry of the screen's history (`GenerationHistory`). */
  datatype HistoryEntry = HistoryEntry(id: string, text: string, selection: VoiceSelection, timestamp: int, audioUrl: string)

  /** What a generation sends to the voice service: the text and the prebuilt voice. */
  datatype VoiceRequest = VoiceRequest(text: string, voiceName: string)

  /** The choices on the screen: dialect, type, gender, voice name and the six controls. */
  datatype Choice = Choice(dialectId: string, voiceType: string, gender: string, voiceName: string, controls: VoiceControls)

  /** The initial controls. */
  const DefaultControls: VoiceControls := VoiceControls("دافئ", "متوسط", "متوسطة", "متوسطة", "متوسطة", "متوسط")

  /** Each initial control is one of the labels its group offers. */
  lemma DefaultControlsOffered()
    ensures DefaultControls.temp in Labels(Controls.temp)
    ensures DefaultControls.emotion in Labels(Controls.emotion)
    ensures DefaultControls.speed in Labels(Controls.speed)
    ensures DefaultControls.depth in Labels(Controls.depth)
    ensures DefaultControls.pitch in Labels(Controls.pitch)
    ensures DefaultControls.drama in Labels(Controls.drama)
  {
    assert Labels(Controls.temp)[0] == DefaultControls.temp;
    assert Labels(Controls.emotion)[1] == DefaultControls.emotion;
    assert Labels(Controls.speed)[1] == DefaultControls.speed;
    assert Labels(Controls.depth)[1] == DefaultControls.depth;
    assert Labels(Controls.pitch)[1] == DefaultControls.pitch;
    assert Labels(Controls.drama)[1] == DefaultControls.drama;
  }

  /** The errors the screen shows. */
  datatype ScreenError = NoInputError | PreprocessError | NoScriptError | GenerateError

  /** The message shown for each error. */
  function ErrorText(e: ScreenError): (msg: string)
    ensures |msg| > 0
  {
    match e
    case NoInputError => "يرجى كتابة النص أولاً."
    case PreprocessError => "فشل تحسين النص ذكياً."
    case NoScriptError => "يرجى التأكد من وجود نص للمخطوطة."
    case GenerateError => "حدث خطأ أثناء معالجة الصوت."
  }

  /** Each error has its own message, so the message shown tells which check failed. */
  lemma ErrorTextsDistinct(e1: ScreenError, e2: ScreenError)
    ensures ErrorText(e1) == ErrorText(e2) ==> e1 == e2
  {
  }

  /** `processedText || inputText`: the text a generation uses. */
  function TextToUse(processedText: string, inputText: string): (t: string)
    ensures t == processedText || t == inputText
    ensures t == inputText <==> processedText == "" || processedText == inputText
  {
    if processedText != "" then processedText else inputText
  }

  /**
   * The state of the studio screen that the two handlers change. The
   * field title stands for `VOICE_FIELDS[0].title`; `VOICE_FIELDS` is not
   * part of this model.
   */
  class StudioScreen {
    /** The dialect table the screen offers (`DIALECTS`). */
    const dialects: seq<DialectInfo>
    var totalGens: int
    var history: seq<HistoryEntry>
    var choice: Choice
    var inputText: string
    var processedText: string
    var isPreprocessing: bool
    var isGenerating: bool
    var currentResult: Option<HistoryEntry>
    var error: Option<ScreenError>
    var isPlaying: bool
    const fieldTitle: string

    /** The screen as it opens: the saved counter and history, the first dialect and type, male, no voice name, the initial controls. */
    constructor (savedTotal: int, savedHistory: seq<HistoryEntry>, fieldTitle: string)
      ensures dialects == Dialects
      ensures totalGens == savedTotal && history == savedHistory && this.fieldTitle == fieldTitle
      ensures choice == Choice(Dialects[0].id, VoiceTypes[0], MaleLabel, "", DefaultControls)
      ensures inputText == "" && processedText == "" && error == None && currentResult == None
      ensures !isPreprocessing && !isGenerating && !isPlaying
    {
      dialects := Dialects;
      totalGens := savedTotal;
      history := savedHistory;
      choice := Choice(Dialects[0].id, VoiceTypes[0], MaleLabel, "", DefaultControls);
      inputText := "";
      processedText := "";
      isPreprocessing := false;
      isGenerating := false;
      currentResult := None;
      error := None;
      isPlaying := false;
      this.fieldTitle := fieldTitle;
    }

    /**
     * `handlePreprocess`, given what the service call produced (`Err` when
     * it threw). A blank input only sets the error and calls nothing.
     */
    method Preprocess(refined: Result<string>) returns (called: bool)
      modifies this
      ensures called <==> !IsBlank(old(inputText))
      ensures !called ==> error == Some(NoInputError) && processedText == old(processedText) && isPreprocessing == old(isPreprocessing)
      ensures called && refined.Ok? ==> processedText == refined.value && error == None
      ensures called && refined.Err? ==> processedText == old(processedText) && error == Some(PreprocessError)
      ensures called ==> !isPreprocessing
      ensures totalGens == old(totalGens) && history == old(history) && choice == old(choice) && inputText == old(inputText)
      ensures isGenerating == old(isGenerating) && currentResult == old(currentResult) && isPlaying == old(isPlaying)
    {
      if IsBlank(inputText) {
        error := Some(NoInputError);
        return false;
      }
      error := None;
      isPreprocessing := true;
      if refined.Ok? {
        processedText := refined.value;
      } else {
        error := Some(PreprocessError);
      }
      isPreprocessing := false;
      called := true;
    }

    /**
     * The voice a generation asks for (the active profile's gender, else
     * the chosen one, through `getBaseVoiceForType`) and the title of the
     * selected dialect. The voice comes out as the rule applied to the
     * chosen type and gender, since every offered profile has that gender.
     */
    method ChosenVoice() returns (voice: string, dialectTitle: string)
      requires |dialects| > 0
      ensures voice == BaseVoiceForType(choice.voiceType, GenderValue(choice.gender))
      ensures dialectTitle == SelectedDialect(dialects, choice.dialectId).title
    {
      var dialect := SelectedDialect(dialects, choice.dialectId);
      var filtered := FilteredProfiles(dialects, choice.voiceType, choice.gender, dialect);
      var active := ActiveVoice(filtered, choice.voiceName);
      voice := BaseVoiceForType(choice.voiceType, VoiceGender(active, choice.gender));
      BaseVoiceFollowsChoice(dialects, choice.voiceType, choice.gender, dialect, choice.voiceName);
      dialectTitle := dialect.title;
    }

    /**
     * `handleGenerate`, given the service's answer (`Err` when it threw),
     * a fresh id, the clock, and whether each of the two `localStorage`
     * writes succeeds. A blank text only sets the error and asks for
     * nothing; otherwise the request carries the text and the base voice,
     * and the answer is recorded as `Finish` says. The counter and the
     * history grow together, except that a counter write that throws
     * leaves the counter one ahead.
     */
    method Generate(audioUrl: Result<string>, id: string, now: int, hasPlayer: bool, counterStored: bool, historyStored: bool)
      returns (request: Option<VoiceRequest>)
      requires |dialects| > 0
      modifies this
      ensures request.None? <==> IsBlank(TextToUse(old(processedText), old(inputText)))
      ensures request.Some? ==> request.value == VoiceRequest(TextToUse(old(processedText), old(inputText)), BaseVoiceForType(choice.voiceType, GenderValue(choice.gender)))
      ensures request.None? ==> && error == Some(NoScriptError) && totalGens == old(totalGens) && history == old(history)
                                && currentResult == old(currentResult) && isGenerating == old(isGenerating) && isPlaying == old(isPlaying)
      ensures request.Some? ==> Finished(old(totalGens), old(history), request.value.text, audioUrl, id, now, hasPlayer, counterStored, historyStored)
      ensures totalGens - |history| == old(totalGens) - |old(history)| + (if request.Some? && audioUrl.Ok? && !counterStored then 1 else 0)
      ensures choice == old(choice) && inputText == old(inputText) && processedText == old(processedText)
      ensures isPreprocessing == old(isPreprocessing)
    {
      var text := TextToUse(processedText, inputText);
      if IsBlank(text) {
        error := Some(NoScriptError);
        return None;
      }
      isGenerating := true;
      error := None;
      currentResult := None;
      isPlaying := false;
      var voice, dialectTitle := ChosenVoice();
      request := Some(VoiceRequest(text, voice));
      Finish(text, dialectTitle, audioUrl, id, now, hasPlayer, counterStored, historyStored);
    }

    /** The history entry a successful generation records. */
    function Entry(id: string, text: string, now: int, audioUrl: string): HistoryEntry
      requires |dialects| > 0
      reads this
    {
      HistoryEntry(id, text, VoiceSelection(SelectedDialect(dialects, choice.dialectId).title, choice.voiceType, fieldTitle, choice.controls), now, audioUrl)
    }

    /**
     * The state after a request was answered. On success one more
     * generation is counted; when the counter is stored the entry is
     * appended to the history; when the history is stored too the entry
     * becomes the current result and plays when there is a player. A
     * failed call, or a storage write that throws, sets the error with no
     * current result. Generating has ended either way.
     */
    predicate Finished(totalBefore: int, historyBefore: seq<HistoryEntry>, text: string, audioUrl: Result<string>, id: string, now: int, hasPlayer: bool,
                       counterStored: bool, historyStored: bool)
      requires |dialects| > 0
      reads this
    {
      && !isGenerating
      && (audioUrl.Ok? ==>
            && totalGens == totalBefore + 1
            && history == (if counterStored then historyBefore + [Entry(id, text, now, audioUrl.value)] else historyBefore)
            && (counterStored && historyStored ==>
                  currentResult == Some(Entry(id, text, now, audioUrl.value)) && error == None && isPlaying == hasPlayer)
            && (!(counterStored && historyStored) ==>
                  currentResult == None && error == Some(GenerateError) && !isPlaying))
      && (audioUrl.Err? ==>
            && totalGens == totalBefore && history == historyBefore
            && currentResult == None && error == Some(GenerateError) && !isPlaying)
    }

    /** The `try`/`catch`/`finally` of `handleGenerate` once the request is sent. */
    method Finish(text: string, dialectTitle: string, audioUrl: Result<string>, id: string, now: int, hasPlayer: bool,
                  counterStored: bool, historyStored: bool)
      requires |dialects| > 0 && dialectTitle == SelectedDialect(dialects, choice.dialectId).title
      requires currentResult == None && error == None
      modifies this
      ensures Finished(old(totalGens), old(history), text, audioUrl, id, now, hasPlayer, counterStored, historyStored)
      ensures choice == old(choice) && inputText == old(inputText) && processedText == old(processedText)
      ensures isPreprocessing == old(isPreprocessing)
    {
      if audioUrl.Ok? {
        totalGens := totalGens + 1;
        if counterStored {
          var entry := HistoryEntry(id, text, VoiceSelection(dialectTitle, choice.voiceType, fieldTitle, choice.controls), now, audioUrl.value);
          history := history + [entry];
          if historyStored {
            currentResult := Some(entry);
            isPlaying := hasPlayer;
          } else {
            error := Some(GenerateError);
            isPlaying := false;
          }
        } else {
          error := Some(GenerateError);
          isPlaying := false;
        }
      } else {
        error := Some(GenerateError);
        isPlaying := false;
      }
      isGenerating := false;
    }
  }

}
