/**
 * The studio's constant tables (constants.tsx): the six control groups
 * with their options, the dialects with their voice profiles, the voice
 * types, and the rule that picks a prebuilt voice for a type and gender.
 */
module Voices {
  import opened Types

  /** The nine categories a profile can belong to. */
  datatype CategoryKey = Doc | Ads | Cartoon | Podcast | Novels | Youtube | Drama | Edu | Corporate

  /** A voice profile: its name, its gender ("male" or "female"), its voice type and its category. */
  datatype VoiceProfile = VoiceProfile(name: string, gender: string, voiceType: string, category: string, categoryKey: CategoryKey)

  /** A dialect and the profiles offered in it. */
  datatype DialectInfo = DialectInfo(id: string, title: string, profiles: seq<VoiceProfile>)

  /** One option of a control group: its label and its description. */
  datatype ControlOption = ControlOption(text: string, desc: string)

  /** A control group: its title and its options. */
  datatype ControlGroup = ControlGroup(title: string, options: seq<ControlOption>)

  /** The six control groups of `STUDIO_CONTROLS`. */
  datatype StudioControls = StudioControls(temp: ControlGroup, emotion: ControlGroup, speed: ControlGroup,
                                           depth: ControlGroup, pitch: ControlGroup, drama: ControlGroup)

  const Male: string := "male"
  const Female: string := "female"

  /** The three voice types: adult, elderly and cartoon character. */
  const Adult: string := "بالغ"
  const Elderly: string := "كبار السن"
  const CartoonCharacter: string := "شخصية كارتونية"

  /** `VOICE_TYPES`. */
  const VoiceTypes: seq<string> := [Adult, Elderly, CartoonCharacter]

  /** The gender labels of the studio's gender choice. */
  const MaleLabel: string := "ذكر"
  const FemaleLabel: string := "أنثى"

  /** `STUDIO_CONTROLS`. */
  const Controls: StudioControls := StudioControls(
    ControlGroup("درجة حرارة الصوت", [
      ControlOption("دافئ", "نبرة عميقة ومطمئنة"),
      ControlOption("طبيعي", "توازن مثالي للحديث"),
      ControlOption("حاد", "وضوح عالي ونبرة بارزة")]),
    ControlGroup("مستوى التعبير", [
      ControlOption("هادئ", "أداء مستقر بدون انفعالات"),
      ControlOption("متوسط", "تفاعل طبيعي مع النص"),
      ControlOption("مرتفع", "أداء درامي مشحون بالمشاعر")]),
    ControlGroup("سرعة الإلقاء", [
      ControlOption("بطيئة", "سرد متأني للروايات"),
      ControlOption("متوسطة", "السرعة المثالية للبودكاست"),
      ControlOption("سريعة", "للإعلانات والفواصل القصيرة")]),
    ControlGroup("عمق الصوت", [
      ControlOption("خفيف", "صوت شبابي ومشرق"),
      ControlOption("متوسطة", "نبرة رجولية متزنة"),
      ControlOption("عميق", "فخامة صوتية ووقار")]),
    ControlGroup("طبقة الصوت", [
      ControlOption("منخفضة", "ترددات عميقة وفخمة"),
      ControlOption("متوسطة", "الطبقة الطبيعية للبشر"),
      ControlOption("مرتفعة", "نبرة حادة وصوت رفيع")]),
    ControlGroup("الحس الدرامي", [
      ControlOption("منخفض", "إلقاء معلوماتي مباشر"),
      ControlOption("متوسط", "توازن بين السرد والتمثيل"),
      ControlOption("مرتفع", "تمثيل كامل للشخصية")]))

  /** The dialects of `DIALECTS`, one constant each (the flags and the descriptions are display text and are not kept). */
  const Egyptian: DialectInfo := DialectInfo("egyptian", "اللهجة المصرية", [
    VoiceProfile("يوسف", Male, Adult, "وثائقي قوي", Doc),
    VoiceProfile("مالك", Male, Adult, "إعلاني سريع", Ads),
    VoiceProfile("رامي", Male, Adult, "بودكاست هادئ", Podcast),
    VoiceProfile("زيد", Male, Adult, "روايات درامية", Novels),
    VoiceProfile("لوجين", Female, CartoonCharacter, "كارتونية مرِحة", Cartoon)])
  const Saudi: DialectInfo := DialectInfo("saudi", "اللهجة السعودية", [
    VoiceProfile("ناصر", Male, Adult, "وثائقي رسمي", Doc),
    VoiceProfile("راكان", Male, Adult, "إعلان تجاري", Ads)])
  const Levantine: DialectInfo := DialectInfo("levantine", "اللهجة السورية", [
    VoiceProfile("ربيع", Male, Adult, "وثائقي درامي", Doc),
    VoiceProfile("لين", Female, Adult, "قصص رومانسية", Novels)])
  const Iraqi: DialectInfo := DialectInfo("iraqi", "اللهجة العراقية", [
    VoiceProfile("علي", Male, Adult, "قصص شعبية", Drama)])
  const Algerian: DialectInfo := DialectInfo("algerian", "اللهجة الجزائرية", [
    VoiceProfile("أنور", Male, Adult, "محتوى وثائقي", Doc)])
  const Moroccan: DialectInfo := DialectInfo("moroccan", "اللهجة المغربية", [
    VoiceProfile("المهدي", Male, Adult, "تقديم معلوماتي", Edu)])
  const Tunisian: DialectInfo := DialectInfo("tunisia", "اللهجة التونسية", [
    VoiceProfile("كريم", Male, Adult, "محتوى ثقافي", Doc)])
  const Fusha: DialectInfo := DialectInfo("fusha", "فصحى", [
    VoiceProfile("طارق", Male, Adult, "روايات", Novels)])

  /** `DIALECTS`, in declaration order. */
  const Dialects: seq<DialectInfo> := [Egyptian, Saudi, Levantine, Iraqi, Algerian, Moroccan, Tunisian, Fusha]

  /**
   * `getBaseVoiceForType`: a female gender (in English or Arabic) always
   * gets Kore; otherwise the elderly type gets Charon, the cartoon type
   * Kore and every other type Fenrir.
   */
  function BaseVoiceForType(voiceType: string, gender: string): (v: string)
    ensures v == "Kore" || v == "Charon" || v == "Fenrir"
  {
    if gender == Female || gender == FemaleLabel then "Kore"
    else if voiceType == Elderly then "Charon"
    else if voiceType == CartoonCharacter then "Kore"
    else "Fenrir"
  }

  /** Each voice the rule picks is a prebuilt voice of the speech model. */
  lemma BaseVoiceIsPrebuilt(voiceType: string, gender: string)
    ensures exists n :: VoiceNameText(n) == BaseVoiceForType(voiceType, gender) && n in {Kore, Charon, Fenrir}
  {
    var v := BaseVoiceForType(voiceType, gender);
    if v == "Kore" {
      assert VoiceNameText(Kore) == v;
    } else if v == "Charon" {
      assert VoiceNameText(Charon) == v;
    } else {
      assert VoiceNameText(Fenrir) == v;
    }
  }

  /** Which voice comes out, case by case, with the gender test taking priority over the type. */
  lemma BaseVoiceCases(voiceType: string, gender: string)
    ensures var v, female := BaseVoiceForType(voiceType, gender), gender == Female || gender == FemaleLabel;
      && (v == "Kore" <==> female || voiceType == CartoonCharacter)
      && (v == "Charon" <==> !female && voiceType == Elderly)
      && (v == "Fenrir" <==> !female && voiceType != Elderly && voiceType != CartoonCharacter)
  {
  }

  /** A female voice does not depend on the type. */
  lemma FemaleIgnoresType(t1: string, t2: string, gender: string)
    requires gender == Female || gender == FemaleLabel
    ensures BaseVoiceForType(t1, gender) == BaseVoiceForType(t2, gender) == "Kore"
  {
  }

  /** The six groups, in declaration order. */
  function Groups(c: StudioControls): (gs: seq<ControlGroup>)
    ensures |gs| == 6
  {
    [c.temp, c.emotion, c.speed, c.depth, c.pitch, c.drama]
  }

  /** The labels of a group's options, in order. */
  function Labels(g: ControlGroup): (ls: seq<string>)
    ensures |ls| == |g.options|
    ensures forall i :: 0 <= i < |ls| ==> ls[i] == g.options[i].text
  {
    seq(|g.options|, i requires 0 <= i < |g.options| => g.options[i].text)
  }

  /** Every control group offers exactly three options with distinct labels. */
  lemma ControlsHaveThreeOptions()
    ensures forall g :: g in Groups(Controls) ==>
              && |g.options| == 3
              && Labels(g)[0] != Labels(g)[1] && Labels(g)[1] != Labels(g)[2] && Labels(g)[0] != Labels(g)[2]
  {
  }

  /** The profiles of all dialects, dialect after dialect (`flatMap`). */
  function FlatProfiles(ds: seq<DialectInfo>): (ps: seq<VoiceProfile>)
    ensures forall d, p :: d in ds && p in d.profiles ==> p in ps
    ensures forall p :: p in ps ==> exists d :: d in ds && p in d.profiles
  {
    if ds == [] then [] else ds[0].profiles + FlatProfiles(ds[1..])
  }

  /** The three voice-type literals are distinct (they differ in length), and the adult and cartoon types are in `VOICE_TYPES`. */
  lemma ConstantsDiffer()
    ensures Adult in VoiceTypes && CartoonCharacter in VoiceTypes
    ensures Adult != Elderly && CartoonCharacter != Elderly && Adult != CartoonCharacter
  {
    assert |Adult| == 4 && |Elderly| == 9 && |CartoonCharacter| == 14;
  }

  /** The declared voice type and gender of one dialect's profiles. */
  predicate WellTyped(d: DialectInfo)
  {
    forall p :: p in d.profiles ==> p.voiceType in VoiceTypes && p.voiceType != Elderly && (p.gender == Male || p.gender == Female)
  }

  /** The first four dialects are well typed. */
  lemma FirstDialectsWellTyped()
    ensures WellTyped(Egyptian) && WellTyped(Saudi) && WellTyped(Levantine) && WellTyped(Iraqi)
  {
    ConstantsDiffer();
  }

  /** The last four dialects are well typed. */
  lemma LastDialectsWellTyped()
    ensures WellTyped(Algerian) && WellTyped(Moroccan) && WellTyped(Tunisian) && WellTyped(Fusha)
  {
    ConstantsDiffer();
  }

  /** Every profile has one of the declared voice types, none is elderly, and every gender is "male" or "female". */
  lemma ProfileTypes()
    ensures forall p :: p in FlatProfiles(Dialects) ==> p.voiceType in VoiceTypes && p.voiceType != Elderly
    ensures forall p :: p in FlatProfiles(Dialects) ==> p.gender == Male || p.gender == Female
  {
    FirstDialectsWellTyped();
    LastDialectsWellTyped();
    forall p | p in FlatProfiles(Dialects)
      ensures p.voiceType in VoiceTypes && p.voiceType != Elderly && (p.gender == Male || p.gender == Female)
    {
      var d :| d in Dialects && p in d.profiles;
      assert WellTyped(d);
    }
  }
}
