/** The generation modal's service (lib/modal/cv-generation-modal-service.ts):
    the CV check before generation, the text streamed while the AI works,
    the per-tick word accumulation of the simulated stream and the cleanup
    handle.  Timers are not modelled: a tick is a call of `Tick`, and the
    interval is named by its id. */
module ModalService {
  import opened Wrappers
  import opened Text
  import opened CvTypes

  datatype Validation = Validation(isValid: bool, error: Option<String>)

  const MissingMessage := "Nom et email requis pour générer le CV"

  /** `validateCVData`: invalid, with its message, exactly when the name or
      the email is missing or empty. */
  function ValidateCVData(cv: CVFormData): (r: Validation)
    ensures !r.isValid <==> !Truthy(cv.personalInfo.name) || !Truthy(cv.personalInfo.email)
    ensures !r.isValid ==> r.error == Some(MissingMessage)
    ensures r.isValid ==> r.error.None?
  {
    if !Truthy(cv.personalInfo.name) || !Truthy(cv.personalInfo.email) then
      Validation(false, Some(MissingMessage))
    else Validation(true, None)
  }

  const StreamIntro := "Amélioration du profil professionnel de "

  const StreamRest := ". Optimisation des descriptions d'expériences, renforcement des compétences clés, " +
    "adaptation du vocabulaire pour les systèmes ATS, quantification des réalisations..."

  /** A template literal renders a missing value as "undefined". */
  function Interpolated(s: Option<String>): String {
    if s.Some? then s.value else "undefined"
  }

  /** `getAIStreamText`: the introduction, then the name. */
  function AIStreamText(cv: CVFormData): (r: String)
    ensures StartsWith(r, StreamIntro)
    ensures |r| == |StreamIntro| + |Interpolated(cv.personalInfo.name)| + |StreamRest|
    ensures cv.personalInfo.name.Some? ==>
      r[|StreamIntro|..|StreamIntro| + |cv.personalInfo.name.value|] == cv.personalInfo.name.value
    ensures EndsWith(r, StreamRest)
  {
    StreamIntro + Interpolated(cv.personalInfo.name) + StreamRest
  }

  /** The simulated stream: the words of the text and the response shown,
      which started as `start`. */
  class Stream {
    const start: String
    const words: seq<String>
    var currentIndex: nat
    var response: String
    /** Whether the interval still runs. */
    var running: bool

    /** After `currentIndex` ticks the response holds the first
        `currentIndex` words, joined by single spaces. */
    predicate Valid()
      reads this
    {
      currentIndex <= |words| && response == start + Join(words[..currentIndex], " ")
    }

    constructor (text: String, prev: String)
      ensures Valid()
      ensures start == prev && words == SplitSeq(text, " ")
      ensures currentIndex == 0 && response == prev && running
    {
      start := prev;
      words := SplitSeq(text, " ");
      currentIndex := 0;
      response := prev;
      running := true;
    }

    /** One tick of the interval: the next word, behind a space unless it is
        the first; with every word shown the interval is cleared. */
    method Tick()
      requires Valid()
      modifies this
      ensures Valid()
      ensures old(currentIndex) < |words| ==>
        currentIndex == old(currentIndex) + 1 && running == old(running)
      ensures old(currentIndex) == |words| ==>
        currentIndex == old(currentIndex) && response == old(response) && !running
    {
      if currentIndex < |words| {
        var i := currentIndex;
        response := response + (if i == 0 then "" else " ") + words[i];
        currentIndex := i + 1;
        if i == 0 {
          assert words[..1] == [words[0]];
        } else {
          assert words[..i + 1] == words[..i] + [words[i]];
          JoinSnoc(words[..i], words[i], " ");
        }
      } else {
        running := false;
      }
    }

    /** `k` ticks from the start show the first `min(k, n)` words; once
        all are shown the response stays `start` followed by the text. */
    method Ticks(k: nat)
      requires Valid() && currentIndex == 0
      modifies this
      ensures Valid()
      ensures currentIndex == if k <= |words| then k else |words|
      ensures k > |words| ==> !running
    {
      for t := 0 to k
        invariant Valid()
        invariant currentIndex == if t <= |words| then t else |words|
        invariant t > |words| ==> !running
      {
        Tick();
      }
    }
  }

  /** When every word has been shown the response is the start followed
      by the whole text. */
  lemma StreamComplete(start: String, text: String, words: seq<String>, response: String)
    requires words == SplitSeq(text, " ")
    requires response == start + Join(words[..|words|], " ")
    ensures response == start + text
  {
    assert words[..|words|] == words;
    SplitJoin(text, " ");
  }

  /** The service object with its cleanup handle. */
  class GenerationService {
    /** The interval the stored cleanup would clear, if any. */
    var cleanup: Option<nat>
    /** The intervals cleared through the cleanup, in order. */
    var cleared: seq<nat>

    constructor ()
      ensures cleanup.None? && cleared == []
    {
      cleanup := None;
      cleared := [];
    }

    /** `simulateAIStreaming`: starts a stream over the words of `text` and
        stores the cleanup of its interval. */
    method SimulateAIStreaming(text: String, prev: String, interval: nat) returns (s: Stream)
      modifies this
      ensures fresh(s) && s.Valid()
      ensures s.words == SplitSeq(text, " ") && s.start == prev && s.currentIndex == 0
      ensures cleanup == Some(interval) && cleared == old(cleared)
    {
      s := new Stream(text, prev);
      cleanup := Some(interval);
    }

    /** `stopStreaming`: runs the stored cleanup once and forgets it, so a
        second call does nothing. */
    method StopStreaming()
      modifies this
      ensures cleanup.None?
      ensures old(cleanup).Some? ==> cleared == old(cleared) + [old(cleanup).value]
      ensures old(cleanup).None? ==> cleared == old(cleared)
    {
      if cleanup.Some? {
        cleared := cleared + [cleanup.value];
        cleanup := None;
      }
    }
  }
}
