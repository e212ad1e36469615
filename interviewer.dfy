/** The interview session of app/interviewer.py: an Interviewer that owns a
    fixed system prompt and a growing transcript, the completion gateway it
    calls once per turn, and the factory that keeps at most one interviewer
    per key of a caller-supplied store. */
module Interviewing {
  import opened Wrappers
  import Prompts

  datatype Role = System | User | Assistant

  /** One `{"role": …, "content": …}` entry of the transcript. */
  datatype Message = Message(role: Role, content: string)

  /** Whatever the completion call raised (network, authentication, quota…). */
  datatype GatewayError = GatewayError(cause: string)

  /** The four settings an interviewer is created with, as `get_settings` reports them. */
  datatype Settings = Settings(jobRole: string, skills: string, difficulty: string, technique: string)

  /** The completion gateway (app/ai_client.py). The remote model is not modelled:
      a call may return any text or fail; the ghost log records every request. */
  class AIClient {
    ghost var requests: seq<(seq<Message>, real)>

    constructor ()
      ensures requests == []
    {
      requests := [];
    }

    method GetChatCompletion(messages: seq<Message>, temperature: real) returns (reply: Result<string, GatewayError>)
      modifies this
      ensures requests == old(requests) + [(messages, temperature)]
    {
      requests := requests + [(messages, temperature)];
      reply :| true;
    }
  }

  class Interviewer {
    const ai: AIClient
    const jobRole: string
    const skills: string
    const difficulty: string
    const technique: string
    const systemPrompt: string
    var messages: seq<Message>
    /** Turns that received a reply, and turns whose gateway call failed. */
    ghost var completedTurns: nat
    ghost var failedTurns: nat

    /** The transcript starts with the one system message carrying the prompt;
        after it come only user and assistant messages, every assistant message
        right after a user message; a completed turn adds two messages and a
        failed one adds one. (That the prompt is the one the settings select is
        fixed by the constructor, and the prompt is a constant.) */
    ghost predicate Valid()
      reads this
    {
      && |messages| == 1 + 2 * completedTurns + failedTurns
      && messages[0] == Message(System, systemPrompt)
      && (forall i :: 1 <= i < |messages| ==> messages[i].role != System)
      && (forall i :: 1 <= i < |messages| && messages[i].role == Assistant ==> messages[i - 1].role == User)
    }

    constructor (jobRole: string := "", skills: string := "", difficulty: string := "", technique: string := "")
      ensures Valid() && fresh(ai) && ai.requests == []
      ensures GetSettings() == Settings(jobRole, skills, difficulty, technique)
      ensures systemPrompt == Prompts.SystemPrompt(jobRole, skills, difficulty, technique)
      ensures messages == [Message(System, systemPrompt)]
      ensures completedTurns == 0 && failedTurns == 0
    {
      ai := new AIClient();
      this.jobRole := jobRole;
      this.skills := skills;
      this.difficulty := difficulty;
      this.technique := technique;
      systemPrompt := Prompts.SystemPrompt(jobRole, skills, difficulty, technique);
      messages := [Message(System, systemPrompt)];
      completedTurns, failedTurns := 0, 0;
    }

    /** One turn: append the user message, send the whole transcript, append the
        reply and return it. A failed call leaves the user message in place and
        adds no reply. */
    method Chat(userInput: string, temperature: real := 0.7) returns (reply: Result<string, GatewayError>)
      requires Valid()
      modifies this, ai
      ensures Valid()
      ensures ai.requests == old(ai.requests) + [(old(messages) + [Message(User, userInput)], temperature)]
      ensures reply.Success? ==>
        && messages == old(messages) + [Message(User, userInput), Message(Assistant, reply.value)]
        && completedTurns == old(completedTurns) + 1 && failedTurns == old(failedTurns)
      ensures reply.Failure? ==>
        && messages == old(messages) + [Message(User, userInput)]
        && completedTurns == old(completedTurns) && failedTurns == old(failedTurns) + 1
    {
      messages := messages + [Message(User, userInput)];
      reply := ai.GetChatCompletion(messages, temperature);
      if reply.Failure? {
        failedTurns := failedTurns + 1;
        return;
      }
      messages := messages + [Message(Assistant, reply.value)];
      completedTurns := completedTurns + 1;
    }

    /** The settings the interviewer was created with; they determine its prompt. */
    function GetSettings(): (s: Settings)
      ensures s == Settings(jobRole, skills, difficulty, technique)
    {
      Settings(jobRole, skills, difficulty, technique)
    }
  }

  /** The caller's dictionary (a plain dict or the UI's per-visitor state). */
  class Storage {
    var entries: map<string, Option<Interviewer>>

    constructor ()
      ensures entries == map[]
    {
      entries := map[];
    }

    /** The key is bound to an interviewer (present and not None). */
    predicate Holds(key: string)
      reads this
    {
      key in entries && entries[key].Some?
    }
  }

  /** The key `answer_turn` uses. */
  const DefaultKey: string := "interviewer"

  /** InterviewerFactory.create: a new interviewer with the given settings. */
  method Create(jobRole: string := "", skills: string := "", difficulty: string := "Medium", technique: string := "Zero-shot")
    returns (i: Interviewer)
    ensures fresh(i) && fresh(i.ai) && i.Valid() && i.ai.requests == []
    ensures i.GetSettings() == Settings(jobRole, skills, difficulty, technique)
    ensures i.systemPrompt == Prompts.SystemPrompt(jobRole, skills, difficulty, technique)
    ensures i.messages == [Message(System, i.systemPrompt)]
  {
    i := new Interviewer(jobRole, skills, difficulty, technique);
  }

  /** InterviewerFactory.get_or_create: build and store an interviewer only when
      the key is absent or bound to None; otherwise return the stored one
      unchanged, whatever settings are passed. No other key is touched. */
  method GetOrCreate(storage: Storage, key: string := DefaultKey, jobRole: string := "", skills: string := "",
                     difficulty: string := "Medium", technique: string := "Zero-shot")
    returns (i: Interviewer)
    modifies storage
    ensures storage.Holds(key) && storage.entries[key] == Some(i)
    ensures old(storage.Holds(key)) ==>
      i == old(storage.entries[key].value) && storage.entries == old(storage.entries)
    ensures !old(storage.Holds(key)) ==>
      && fresh(i) && fresh(i.ai) && i.Valid() && i.ai.requests == []
      && i.GetSettings() == Settings(jobRole, skills, difficulty, technique)
      && i.messages == [Message(System, i.systemPrompt)]
      && storage.entries == old(storage.entries)[key := Some(i)]
  {
    if !storage.Holds(key) {
      var created := Create(jobRole, skills, difficulty, technique);
      storage.entries := storage.entries[key := Some(created)];
    }
    i := storage.entries[key].value;
  }

  /** InterviewerFactory.reset: a present key is set to None; an absent key is left absent. */
  method Reset(storage: Storage, key: string := DefaultKey)
    modifies storage
    ensures key in old(storage.entries) ==> storage.entries == old(storage.entries)[key := None]
    ensures key !in old(storage.entries) ==> storage.entries == old(storage.entries)
  {
    if key in storage.entries {
      storage.entries := storage.entries[key := None];
    }
  }

  /** The objects a turn may change besides the store: the interviewer already
      bound to the key, and its gateway. */
  function Bound(storage: Storage, key: string): set<object>
    reads storage
  {
    if storage.Holds(key) then {storage.entries[key].value, storage.entries[key].value.ai} else {}
  }

  /** The assistant message a turn adds: the reply, or nothing when the call failed. */
  function Reply(reply: Result<string, GatewayError>): seq<Message>
  {
    if reply.Success? then [Message(Assistant, reply.value)] else []
  }

  /** answer_turn: fetch or create the interviewer under the default key and
      take one turn with it. */
  method AnswerTurn(storage: Storage, userMessage: string, jobRole: string := "", skills: string := "",
                    difficulty: string := "Medium", technique: string := "Zero-shot", temperature: real := 0.7)
    returns (reply: Result<string, GatewayError>)
    requires storage.Holds(DefaultKey) ==> storage.entries[DefaultKey].value.Valid()
    modifies storage, Bound(storage, DefaultKey)
    ensures storage.Holds(DefaultKey) && storage.entries[DefaultKey].value.Valid()
    ensures storage.entries == old(storage.entries)[DefaultKey := storage.entries[DefaultKey]]
    ensures old(storage.Holds(DefaultKey)) ==> storage.entries == old(storage.entries)
    ensures old(storage.Holds(DefaultKey)) ==> var i := storage.entries[DefaultKey].value;
      i.messages == old(i.messages) + [Message(User, userMessage)] + Reply(reply)
    ensures old(storage.Holds(DefaultKey)) ==> var i := storage.entries[DefaultKey].value;
      i.ai.requests == old(i.ai.requests) + [(old(i.messages) + [Message(User, userMessage)], temperature)]
    ensures !old(storage.Holds(DefaultKey)) ==> var i := storage.entries[DefaultKey].value;
      && fresh(i) && i.GetSettings() == Settings(jobRole, skills, difficulty, technique)
      && i.messages == [Message(System, i.systemPrompt), Message(User, userMessage)] + Reply(reply)
      && i.ai.requests == [([Message(System, i.systemPrompt), Message(User, userMessage)], temperature)]
  {
    ghost var wasBound := storage.Holds(DefaultKey);
    var i := GetOrCreate(storage, DefaultKey, jobRole, skills, difficulty, technique);
    ghost var first := i.messages + [Message(User, userMessage)];
    reply := i.Chat(userMessage, temperature);
    if !wasBound {
      assert first == [Message(System, i.systemPrompt), Message(User, userMessage)];
      assert i.ai.requests == [] + [(first, temperature)];
    }
  }

  /** The cache law, first half: a second get_or_create under the same key
      returns the interviewer of the first, even with other settings. */
  method GetOrCreateTwice(storage: Storage, key: string, first: Settings, second: Settings)
    returns (a: Interviewer, b: Interviewer)
    modifies storage
    ensures b == a && storage.Holds(key) && storage.entries[key] == Some(a)
    ensures old(storage.Holds(key)) ==> storage.entries == old(storage.entries)
  {
    a := GetOrCreate(storage, key, first.jobRole, first.skills, first.difficulty, first.technique);
    b := GetOrCreate(storage, key, second.jobRole, second.skills, second.difficulty, second.technique);
  }

  /** The cache law, second half: after reset, get_or_create builds a new
      interviewer with the settings it is given. */
  method ResetThenGetOrCreate(storage: Storage, key: string, settings: Settings) returns (c: Interviewer)
    modifies storage
    ensures fresh(c) && c.GetSettings() == settings && c.Valid() && |c.messages| == 1
    ensures storage.entries == old(storage.entries)[key := Some(c)]
  {
    Reset(storage, key);
    c := GetOrCreate(storage, key, settings.jobRole, settings.skills, settings.difficulty, settings.technique);
  }
}
