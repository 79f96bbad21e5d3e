/** Idempotency keys as the strings the unique column holds. */
module Keys {
  import opened Domain

  predicate Stage(jobType: JobType) {
    jobType == Transcribe || jobType == Summarize || jobType == ExtractArtifact
  }

  function TypeName(jobType: JobType): string {
    match jobType
    case Transcribe => "transcribe"
    case Summarize => "summarize"
    case ExtractArtifact => "extract_artifact"
    case Publish => "publish"
    case OtherType(name) => name
  }

  predicate WellFormed(key: JobKey) {
    key.PipelineKey? ==> Stage(key.stage)
  }

  /** The key string, given the text form of row identifiers. */
  function Render(key: JobKey, text: Id -> string): string {
    match key
    case PipelineKey(s, stage) => text(s) + (":" + TypeName(stage))
    case RetryKey(s, suffix) => text(s) + (":extract_artifact:retry-" + suffix)
    case PublishKey(s, a) => text(s) + (":publish:" + text(a))
  }

  /** The canonical UUID text: 36 characters, different for different identifiers. */
  ghost predicate UuidText(text: Id -> string) {
    && (forall i: Id :: |text(i)| == 36)
    && (forall i: Id, k: Id :: text(i) == text(k) ==> i == k)
  }

  lemma ConcatSplit(a: string, b: string, c: string, d: string)
    requires |a| == |c| && a + b == c + d
    ensures a == c && b == d
  {
    assert a == (a + b)[..|a|] && c == (c + d)[..|a|];
    assert b == (a + b)[|a|..] && d == (c + d)[|a|..];
  }

  /** The part after the session id tells the three formats apart. */
  function Tail(key: JobKey, text: Id -> string): string {
    match key
    case PipelineKey(_, stage) => ":" + TypeName(stage)
    case RetryKey(_, suffix) => ":extract_artifact:retry-" + suffix
    case PublishKey(_, a) => ":publish:" + text(a)
  }

  /** Either the length or one of two characters tells the formats apart. */
  lemma TailShape(key: JobKey, text: Id -> string)
    requires WellFormed(key) && UuidText(text)
    ensures var t := Tail(key, text);
            match key
            case PipelineKey(_, stage) =>
              (stage == Transcribe ==> |t| == 11 && t[1] == 't') &&
              (stage == Summarize ==> |t| == 10 && t[1] == 's') &&
              (stage == ExtractArtifact ==> |t| == 17 && t[1] == 'e')
            case RetryKey(_, suffix) => |t| == 24 + |suffix| && t[1] == 'e'
            case PublishKey(_, _) => |t| == 45 && t[1] == 'p'
  {
  }

  lemma TailInjective(k1: JobKey, k2: JobKey, text: Id -> string)
    requires WellFormed(k1) && WellFormed(k2) && UuidText(text)
    requires k1.session == k2.session && Tail(k1, text) == Tail(k2, text)
    ensures k1 == k2
  {
    TailShape(k1, text);
    TailShape(k2, text);
    match k1
    case PipelineKey(_, _) =>
    case RetryKey(_, suffix) =>
      ConcatSplit(":extract_artifact:retry-", suffix, ":extract_artifact:retry-", k2.suffix);
    case PublishKey(_, a) =>
      ConcatSplit(":publish:", text(a), ":publish:", text(k2.artifact));
  }

  /** Two jobs carry the same key string exactly when they carry the same key:
      the formats are injective and pairwise disjoint. */
  lemma RenderInjective(k1: JobKey, k2: JobKey, text: Id -> string)
    requires WellFormed(k1) && WellFormed(k2) && UuidText(text)
    ensures Render(k1, text) == Render(k2, text) <==> k1 == k2
  {
    if Render(k1, text) == Render(k2, text) {
      ConcatSplit(text(k1.session), Tail(k1, text), text(k2.session), Tail(k2, text));
      TailInjective(k1, k2, text);
    }
  }

  /** The unique constraint over key strings rejects an insertion exactly when
      the key itself is already taken. */
  lemma UniqueColumn(jobs: map<Id, Job>, key: JobKey, text: Id -> string)
    requires WellFormed(key) && (forall j :: j in jobs ==> WellFormed(jobs[j].key)) && UuidText(text)
    ensures KeyTaken(jobs, key) <==> exists j :: j in jobs && Render(jobs[j].key, text) == Render(key, text)
  {
    forall j | j in jobs
      ensures Render(jobs[j].key, text) == Render(key, text) <==> jobs[j].key == key
    {
      RenderInjective(jobs[j].key, key, text);
    }
  }
}
