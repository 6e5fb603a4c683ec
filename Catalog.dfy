/**
 * Every concrete voice command of the system as one closed type, with the
 * four things the engine asks of a command (its name, category, patterns
 * and handler) dispatched to the file that defines it, and the list of
 * commands the comprehensive registry registers, in its order.
 */
module Catalog {
  import opened Common
  import opened VoiceTypes
  import Basic = BasicCommands
  import AudioCmds = AudioCommands
  import Rec = RecordingCommands
  import Tr = TranscriptCommands
  import SttCmds = SttCommands
  import Sys = SystemCommands
  import Spec = RegistryCommands
  import Sess = SessionCommands

  datatype Command =
    | BasicCmd(b: Basic.Kind)
    | AudioCmd(a: AudioCmds.Kind)
    | RecordingCmd(r: Rec.Kind)
    | TranscriptCmd(t: Tr.Kind)
    | SttCmd(s: SttCmds.Kind)
    | SystemCmd(y: Sys.Kind)
    | SpecializedCmd(z: Spec.Kind)
    | SessionCmd(e: Sess.Kind)

  function Name(c: Command): string
  {
    match c
    case BasicCmd(k) => Basic.Name(k)
    case AudioCmd(k) => AudioCmds.Name(k)
    case RecordingCmd(k) => Rec.Name(k)
    case TranscriptCmd(k) => Tr.Name(k)
    case SttCmd(k) => SttCmds.Name(k)
    case SystemCmd(k) => Sys.Name(k)
    case SpecializedCmd(k) => Spec.Name(k)
    case SessionCmd(k) => Sess.Name(k)
  }

  function Category(c: Command): CommandCategory
  {
    match c
    case BasicCmd(k) => Basic.Category(k)
    case AudioCmd(k) => AudioCmds.Category(k)
    case RecordingCmd(k) => Rec.Category(k)
    case TranscriptCmd(k) => Tr.Category(k)
    case SttCmd(k) => SttCmds.Category(k)
    case SystemCmd(k) => Sys.Category(k)
    case SpecializedCmd(k) => Spec.Category(k)
    case SessionCmd(k) => Sess.Category(k)
  }

  function Patterns(c: Command): seq<PatternType>
  {
    match c
    case BasicCmd(k) => Basic.Patterns(k)
    case AudioCmd(k) => AudioCmds.Patterns(k)
    case RecordingCmd(k) => Rec.Patterns(k)
    case TranscriptCmd(k) => Tr.Patterns(k)
    case SttCmd(k) => SttCmds.Patterns(k)
    case SystemCmd(k) => Sys.Patterns(k)
    case SpecializedCmd(k) => Spec.Patterns(k)
    case SessionCmd(k) => Sess.Patterns(k)
  }

  /**
   * Runs a command's handler.  Whatever the command, an error leaves the
   * context exactly as it was, and a result that is not an error reports
   * success.
   */
  function Execute(c: Command, params: CommandParams, ctx: SystemContext, env: Env): (o: Outcome)
    ensures o.result.Err? ==> o.ctx == ctx
    ensures o.result.Ok? ==> o.result.value.success
  {
    match c
    case BasicCmd(k) => Basic.Execute(k, params, ctx)
    case AudioCmd(k) => AudioCmds.Execute(k, params, ctx)
    case RecordingCmd(k) => Rec.Execute(k, params, ctx)
    case TranscriptCmd(k) => Tr.Execute(k, params, ctx, env)
    case SttCmd(k) => SttCmds.Execute(k, params, ctx)
    case SystemCmd(k) => Sys.Execute(k, params, ctx, env)
    case SpecializedCmd(k) => Spec.Execute(k, params, ctx)
    case SessionCmd(k) => Sess.Execute(k, params, ctx, env)
  }

  // ---------------------------------------------------------------------
  // What the comprehensive registry registers
  // ---------------------------------------------------------------------

  const BasicPart: seq<Command> := seq(|Basic.Registered|, i requires 0 <= i < |Basic.Registered| => BasicCmd(Basic.Registered[i]))
  const AudioPart: seq<Command> :=
    seq(|AudioCmds.Registered|, i requires 0 <= i < |AudioCmds.Registered| => AudioCmd(AudioCmds.Registered[i]))
  const RecordingPart: seq<Command> := seq(|Rec.Registered|, i requires 0 <= i < |Rec.Registered| => RecordingCmd(Rec.Registered[i]))
  const TranscriptPart: seq<Command> := seq(|Tr.Registered|, i requires 0 <= i < |Tr.Registered| => TranscriptCmd(Tr.Registered[i]))
  const SttPart: seq<Command> := seq(|SttCmds.Registered|, i requires 0 <= i < |SttCmds.Registered| => SttCmd(SttCmds.Registered[i]))
  const SystemPart: seq<Command> := seq(|Sys.Registered|, i requires 0 <= i < |Sys.Registered| => SystemCmd(Sys.Registered[i]))
  const SpecializedPart: seq<Command> :=
    seq(|Spec.Registered|, i requires 0 <= i < |Spec.Registered| => SpecializedCmd(Spec.Registered[i]))

  /**
   * The commands in the order `register_all_commands` registers them:
   * basic, audio, audio recording, transcript management, speech to text,
   * system, then the specialised ones.
   */
  const AllRegistered: seq<Command> :=
    BasicPart + AudioPart + RecordingPart + TranscriptPart + SttPart + SystemPart + SpecializedPart

  function Names(cs: seq<Command>): (ns: seq<string>)
    ensures |ns| == |cs| && forall i :: 0 <= i < |cs| ==> ns[i] == Name(cs[i])
  {
    seq(|cs|, i requires 0 <= i < |cs| => Name(cs[i]))
  }

  /** 10 + 12 + 8 + 12 + 11 + 12 + 17 commands. */
  lemma RegisteredCount()
    ensures |BasicPart| == 10 && |AudioPart| == 12 && |RecordingPart| == 8 && |TranscriptPart| == 12
    ensures |SttPart| == 11 && |SystemPart| == 12 && |SpecializedPart| == 17
    ensures |AllRegistered| == 82
  {
    Rec.NamesDistinct();
    Tr.NamesDistinct();
    Sys.NamesDistinct();
    Spec.NamesDistinct();
  }

  predicate Distinct(p: seq<Command>)
  {
    forall i, j :: 0 <= i < j < |p| ==> Name(p[i]) != Name(p[j])
  }

  predicate Apart(p: seq<Command>, q: seq<Command>)
  {
    forall i, j :: 0 <= i < |p| && 0 <= j < |q| ==> Name(p[i]) != Name(q[j])
  }

  lemma DistinctJoin(p: seq<Command>, q: seq<Command>)
    requires Distinct(p) && Distinct(q) && Apart(p, q)
    ensures Distinct(p + q)
  {
    forall i, j | 0 <= i < j < |p + q| ensures Name((p + q)[i]) != Name((p + q)[j]) {
      if j < |p| {
      } else if i >= |p| {
        assert (p + q)[i] == q[i - |p|] && (p + q)[j] == q[j - |p|];
      } else {
        assert (p + q)[j] == q[j - |p|];
      }
    }
  }

  lemma ApartJoin(p1: seq<Command>, p2: seq<Command>, q: seq<Command>)
    requires Apart(p1, q) && Apart(p2, q)
    ensures Apart(p1 + p2, q)
  {
    forall i, j | 0 <= i < |p1 + p2| && 0 <= j < |q| ensures Name((p1 + p2)[i]) != Name(q[j]) {
      if i >= |p1| {
        assert (p1 + p2)[i] == p2[i - |p1|];
      }
    }
  }

  lemma PartsDistinct()
    ensures Distinct(BasicPart)
    ensures Distinct(AudioPart)
    ensures Distinct(RecordingPart)
    ensures Distinct(TranscriptPart)
    ensures Distinct(SttPart)
    ensures Distinct(SystemPart)
    ensures Distinct(SpecializedPart)
  {
    Basic.NamesDistinct();
    AudioCmds.NamesDistinct();
    Rec.NamesDistinct();
    Tr.NamesDistinct();
    SttCmds.NamesDistinct();
    Sys.NamesDistinct();
    Spec.NamesDistinct();
  }

  lemma ApartBasicAudio()
    ensures Apart(BasicPart, AudioPart)
  {
  }

  lemma ApartBasicRecording()
    ensures Apart(BasicPart, RecordingPart)
  {
  }

  lemma ApartBasicTranscript()
    ensures Apart(BasicPart, TranscriptPart)
  {
  }

  lemma ApartBasicStt()
    ensures Apart(BasicPart, SttPart)
  {
  }

  lemma ApartBasicSystem()
    ensures Apart(BasicPart, SystemPart)
  {
  }

  lemma ApartBasicSpecialized()
    ensures Apart(BasicPart, SpecializedPart)
  {
  }

  lemma ApartAudioRecording()
    ensures Apart(AudioPart, RecordingPart)
  {
  }

  lemma ApartAudioTranscript()
    ensures Apart(AudioPart, TranscriptPart)
  {
  }

  lemma ApartAudioStt()
    ensures Apart(AudioPart, SttPart)
  {
  }

  lemma ApartAudioSystem()
    ensures Apart(AudioPart, SystemPart)
  {
  }

  lemma ApartAudioSpecialized()
    ensures Apart(AudioPart, SpecializedPart)
  {
  }

  lemma ApartRecordingTranscript()
    ensures Apart(RecordingPart, TranscriptPart)
  {
  }

  lemma ApartRecordingStt()
    ensures Apart(RecordingPart, SttPart)
  {
  }

  lemma ApartRecordingSystem()
    ensures Apart(RecordingPart, SystemPart)
  {
  }

  lemma ApartRecordingSpecialized()
    ensures Apart(RecordingPart, SpecializedPart)
  {
  }

  lemma ApartTranscriptStt()
    ensures Apart(TranscriptPart, SttPart)
  {
  }

  lemma ApartTranscriptSystem()
    ensures Apart(TranscriptPart, SystemPart)
  {
  }

  lemma ApartTranscriptSpecialized()
    ensures Apart(TranscriptPart, SpecializedPart)
  {
  }

  lemma ApartSttSystem()
    ensures Apart(SttPart, SystemPart)
  {
  }

  lemma ApartSttSpecialized()
    ensures Apart(SttPart, SpecializedPart)
  {
  }

  lemma ApartSystemSpecialized()
    ensures Apart(SystemPart, SpecializedPart)
  {
  }

  /** No two registered commands share a name, so none replaces another in the engine's map. */
  lemma RegisteredNamesDistinct()
    ensures Distinct(AllRegistered)
    ensures NoDuplicates(Names(AllRegistered))
  {
    PartsDistinct();
    var acc := BasicPart;
    ApartBasicAudio();
    var q1 := BasicPart;
    assert q1 == acc;
    DistinctJoin(acc, AudioPart);
    acc := acc + AudioPart;
    ApartBasicRecording();
    ApartAudioRecording();
    var q2 := BasicPart;
    ApartJoin(q2, AudioPart, RecordingPart); q2 := q2 + AudioPart;
    assert q2 == acc;
    DistinctJoin(acc, RecordingPart);
    acc := acc + RecordingPart;
    ApartBasicTranscript();
    ApartAudioTranscript();
    ApartRecordingTranscript();
    var q3 := BasicPart;
    ApartJoin(q3, AudioPart, TranscriptPart); q3 := q3 + AudioPart;
    ApartJoin(q3, RecordingPart, TranscriptPart); q3 := q3 + RecordingPart;
    assert q3 == acc;
    DistinctJoin(acc, TranscriptPart);
    acc := acc + TranscriptPart;
    ApartBasicStt();
    ApartAudioStt();
    ApartRecordingStt();
    ApartTranscriptStt();
    var q4 := BasicPart;
    ApartJoin(q4, AudioPart, SttPart); q4 := q4 + AudioPart;
    ApartJoin(q4, RecordingPart, SttPart); q4 := q4 + RecordingPart;
    ApartJoin(q4, TranscriptPart, SttPart); q4 := q4 + TranscriptPart;
    assert q4 == acc;
    DistinctJoin(acc, SttPart);
    acc := acc + SttPart;
    ApartBasicSystem();
    ApartAudioSystem();
    ApartRecordingSystem();
    ApartTranscriptSystem();
    ApartSttSystem();
    var q5 := BasicPart;
    ApartJoin(q5, AudioPart, SystemPart); q5 := q5 + AudioPart;
    ApartJoin(q5, RecordingPart, SystemPart); q5 := q5 + RecordingPart;
    ApartJoin(q5, TranscriptPart, SystemPart); q5 := q5 + TranscriptPart;
    ApartJoin(q5, SttPart, SystemPart); q5 := q5 + SttPart;
    assert q5 == acc;
    DistinctJoin(acc, SystemPart);
    acc := acc + SystemPart;
    ApartBasicSpecialized();
    ApartAudioSpecialized();
    ApartRecordingSpecialized();
    ApartTranscriptSpecialized();
    ApartSttSpecialized();
    ApartSystemSpecialized();
    var q6 := BasicPart;
    ApartJoin(q6, AudioPart, SpecializedPart); q6 := q6 + AudioPart;
    ApartJoin(q6, RecordingPart, SpecializedPart); q6 := q6 + RecordingPart;
    ApartJoin(q6, TranscriptPart, SpecializedPart); q6 := q6 + TranscriptPart;
    ApartJoin(q6, SttPart, SpecializedPart); q6 := q6 + SttPart;
    ApartJoin(q6, SystemPart, SpecializedPart); q6 := q6 + SystemPart;
    assert q6 == acc;
    DistinctJoin(acc, SpecializedPart);
    acc := acc + SpecializedPart;
    assert acc == AllRegistered;
  }

  // ---------------------------------------------------------------------
  // Command counts taken from what is registered
  // ---------------------------------------------------------------------

  /** How many of `cs` belong to category `c`. */
  function CountIn(cs: seq<Command>, c: CommandCategory): (n: nat)
    ensures n <= |cs|
  {
    if |cs| == 0 then 0 else (if Category(cs[0]) == c then 1 else 0) + CountIn(cs[1..], c)
  }

  /** The sum over `cats` of the number of commands in each. */
  function SumCounts(cats: seq<CommandCategory>, cs: seq<Command>): nat
  {
    if |cats| == 0 then 0 else CountIn(cs, cats[0]) + SumCounts(cats[1..], cs)
  }

  function Occurrences(cats: seq<CommandCategory>, c: CommandCategory): nat
  {
    if |cats| == 0 then 0 else (if cats[0] == c then 1 else 0) + Occurrences(cats[1..], c)
  }

  lemma {:induction false} SumCountsCons(cats: seq<CommandCategory>, x: Command, cs: seq<Command>)
    ensures SumCounts(cats, [x] + cs) == Occurrences(cats, Category(x)) + SumCounts(cats, cs)
    decreases |cats|
  {
    if |cats| > 0 {
      assert ([x] + cs)[1..] == cs;
      SumCountsCons(cats[1..], x, cs);
    }
  }

  lemma {:induction false} OccurrencesNone(cats: seq<CommandCategory>, c: CommandCategory)
    requires c !in cats
    ensures Occurrences(cats, c) == 0
    decreases |cats|
  {
    if |cats| > 0 {
      assert c !in cats[1..];
      OccurrencesNone(cats[1..], c);
    }
  }

  lemma {:induction false} OccurrencesOnce(cats: seq<CommandCategory>, c: CommandCategory)
    requires NoDuplicates(cats) && c in cats
    ensures Occurrences(cats, c) == 1
    decreases |cats|
  {
    if cats[0] == c {
      assert c !in cats[1..];
      OccurrencesNone(cats[1..], c);
    } else {
      assert c in cats[1..];
      assert NoDuplicates(cats[1..]);
      OccurrencesOnce(cats[1..], c);
    }
  }

  /** Every category is listed exactly once. */
  lemma OnceEach(c: CommandCategory)
    ensures Occurrences(Spec.AllCategories, c) == 1
  {
    Spec.EveryCategoryListed(c);
    assert NoDuplicates(Spec.AllCategories);
    OccurrencesOnce(Spec.AllCategories, c);
  }

  lemma {:induction false} SumCountsEmpty(cats: seq<CommandCategory>)
    ensures SumCounts(cats, []) == 0
    decreases |cats|
  {
    if |cats| > 0 {
      SumCountsEmpty(cats[1..]);
    }
  }

  /** Counting per category and adding up the categories counts every command exactly once. */
  lemma {:induction false} SumCountsAll(cs: seq<Command>)
    ensures SumCounts(Spec.AllCategories, cs) == |cs|
    decreases |cs|
  {
    if |cs| == 0 {
      SumCountsEmpty(Spec.AllCategories);
    } else {
      assert cs == [cs[0]] + cs[1..];
      assert SumCounts(Spec.AllCategories, cs) == SumCounts(Spec.AllCategories, [cs[0]] + cs[1..]);
      SumCountsCons(Spec.AllCategories, cs[0], cs[1..]);
      OnceEach(Category(cs[0]));
      SumCountsAll(cs[1..]);
    }
  }

  /** The number of commands among `cs` of every category in `cats`. */
  function CountsOf(cats: seq<CommandCategory>, cs: seq<Command>): (m: map<CommandCategory, nat>)
    ensures forall i :: 0 <= i < |cats| ==> cats[i] in m && m[cats[i]] == CountIn(cs, cats[i])
  {
    if |cats| == 0 then map[] else CountsOf(cats[1..], cs)[cats[0] := CountIn(cs, cats[0])]
  }

  /** `get_total_command_count` over a table computed from `cs`: every command is counted once. */
  function TotalCommandCount(cs: seq<Command>): (n: nat)
    ensures n == |cs|
  {
    var m := CountsOf(Spec.AllCategories, cs);
    SumOverCounts(Spec.AllCategories, m, cs);
    SumCountsAll(cs);
    Spec.SumOver(Spec.AllCategories, m)
  }

  lemma {:induction false} SumOverCounts(cats: seq<CommandCategory>, m: map<CommandCategory, nat>, cs: seq<Command>)
    requires forall i :: 0 <= i < |cats| ==> cats[i] in m && m[cats[i]] == CountIn(cs, cats[i])
    ensures Spec.SumOver(cats, m) == SumCounts(cats, cs)
    decreases |cats|
  {
    if |cats| > 0 {
      SumOverCounts(cats[1..], m, cs);
    }
  }

  /**
   * The hand-written table undercounts: it sums to 48, below the 75 the
   * source's test demands, while counting the registered commands gives 82.
   */
  lemma TotalCountAsWrittenTooLow()
    ensures Spec.TotalCommandCountAsWritten() < 75
    ensures Spec.TotalCommandCountAsWritten() != |AllRegistered|
    ensures TotalCommandCount(AllRegistered) == 82
  {
    RegisteredCount();
  }
}
