/**
 * The shapes of types.ts: the prebuilt voices, the six studio controls,
 * the stored generation records, the session log and the dashboard
 * statistics. Numbers that are counts are `nat`, times in milliseconds
 * are `int`, durations in seconds are `real`.
 */
module Types {
  import opened Wrappers

  /** The prebuilt voices the speech model offers. */
  datatype VoiceName = Kore | Puck | Charon | Fenrir | Zephyr

  /** The string value of each voice, as the enum declares it. */
  function VoiceNameText(v: VoiceName): (s: string)
    ensures |s| >= 4
  {
    match v
    case Kore => "Kore"
    case Puck => "Puck"
    case Charon => "Charon"
    case Fenrir => "Fenrir"
    case Zephyr => "Zephyr"
  }

  /** No two voices share a string value, so the string sent to the service names one voice. */
  lemma VoiceNameTextsDistinct(v: VoiceName, w: VoiceName)
    ensures VoiceNameText(v) == VoiceNameText(w) ==> v == w
  {
  }

  /** The label chosen in each of the six control groups. */
  datatype VoiceControls = VoiceControls(temp: string, emotion: string, speed: string, depth: string, pitch: string, drama: string)

  /** What a generation was made with. */
  datatype VoiceSelection = VoiceSelection(dialect: string, voiceType: string, field: string, controls: VoiceControls)

  /** `'success' | 'error'`. */
  datatype Status = Success | Failure

  /** A stored generation; `duration` is `None` where the stored object has none. */
  datatype GenerationRecord = GenerationRecord(
    id: string,
    userId: string,
    text: string,
    selection: VoiceSelection,
    timestamp: int,
    audioData: string,
    duration: Option<real>,
    status: Status,
    engine: string)

  /** A visit, as `logSession` records it. */
  datatype SessionLog = SessionLog(
    id: string,
    userId: string,
    startTime: int,
    lastActive: int,
    country: string,
    countryCode: string,
    referrer: string,
    browser: string,
    device: string)

  /** A named count of the dashboard's top lists. */
  datatype Tally = Tally(key: string, count: nat)

  /** The dashboard figures. */
  datatype GlobalStats = GlobalStats(
    totalUsers: nat,
    totalRecords: nat,
    totalDuration: real,
    successRate: nat,
    avgVoicesPerUser: real,
    avgSessionDuration: nat,
    topCountries: seq<Tally>,
    topSources: seq<Tally>,
    deviceStats: map<string, nat>)
}
