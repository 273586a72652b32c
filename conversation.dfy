/**
 * The server side of the chat: each registered user owns one stored record
 * whose `chats` list is the transcript. A new message is combined with the
 * transcript into one prompt for the completion model. On success the
 * message and the reply are appended as two turns and saved. The transcript
 * can also be read back and cleared.
 */
module Conversation {
  import opened Wrappers
  import opened JsStrings

  // ---------------------------------------------------------------- data

  datatype Role = User | Assistant

  /** One message of a conversation, tagged with its speaker. */
  datatype Turn = Turn(role: Role, content: string)

  type UserId = string

  /** The stored user document: its own id and its transcript. */
  datatype UserRecord = UserRecord(id: UserId, chats: seq<Turn>)

  /** What the completion model gives back for a prompt. */
  datatype Completion = Success(text: string) | Failure(msg: string)

  /** The JSON (or plain-text) payload of an HTTP response. */
  datatype Body =
    | Text(text: string)                                // res.send(text)
    | Message(message: string)                          // { message }
    | MessageCause(message: string, cause: string)      // { message, cause }
    | Chats(chats: seq<Turn>)                           // { chats }
    | MessageChats(message: string, chats: seq<Turn>)   // { message, chats }

  datatype Response = Response(status: nat, body: Body)

  /** Outcome of `User.findById`. */
  datatype Lookup = LookupFailed(cause: string) | NotFound | Found(user: UserRecord)

  const NotRegistered := "User not registered OR Token malfunctioned"

  /** The 500 reply of the completion handler, carrying the error's message. */
  function ServerError(cause: string): Response {
    Response(500, MessageCause("Something went wrong", cause))
  }

  /** The reply of the read and delete handlers when something throws. */
  function ReportedError(cause: string): Response {
    Response(200, MessageCause("ERROR", cause))
  }

  // ---------------------------------------------------------------- prompt

  function RoleName(r: Role): string {
    match r
    case User => "user"
    case Assistant => "assistant"
  }

  /** A stored turn as one line of the prompt. */
  function RenderTurn(t: Turn): string {
    RoleName(t.role) + ": " + t.content
  }

  function RenderAll(chats: seq<Turn>): (lines: seq<string>)
    ensures |lines| == |chats|
    ensures forall i :: 0 <= i < |chats| ==> lines[i] == RenderTurn(chats[i])
  {
    if chats == [] then [] else [RenderTurn(chats[0])] + RenderAll(chats[1..])
  }

  /** The prompt for `message`: the rendered transcript joined by newlines,
      then a newline and the new message as a user line. */
  function BuildPrompt(chats: seq<Turn>, message: string): (p: string)
    ensures |p| >= 7 + |message| && p[|p| - 7 - |message|..] == "\nuser: " + message
  {
    Join(RenderAll(chats), "\n") + "\nuser: " + message
  }

  /** Reference reading of the prompt: every stored turn as its own
      newline-terminated line, then the new user line; with no history the
      prompt is the new user line preceded by a newline. */
  function Lines(chats: seq<Turn>): string {
    if chats == [] then "" else RenderTurn(chats[0]) + "\n" + Lines(chats[1..])
  }

  function PromptReference(chats: seq<Turn>, message: string): string {
    if chats == [] then "\nuser: " + message else Lines(chats) + "user: " + message
  }

  /** With more than one stored turn, the prompt is the first turn's line
      followed by the prompt built from the remaining turns. */
  lemma BuildPromptCons(chats: seq<Turn>, message: string)
    requires |chats| > 1
    ensures BuildPrompt(chats, message) == RenderTurn(chats[0]) + "\n" + BuildPrompt(chats[1..], message)
  {
    var first := RenderTurn(chats[0]);
    var j := Join(RenderAll(chats[1..]), "\n");
    assert RenderAll(chats)[1..] == RenderAll(chats[1..]);
    assert Join(RenderAll(chats), "\n") == first + "\n" + j;
    assert first + "\n" + j + "\nuser: " + message == first + "\n" + (j + "\nuser: " + message);
  }

  /** The prompt holds the whole transcript, in order, one line per turn. */
  lemma {:induction false} PromptMatchesReference(chats: seq<Turn>, message: string)
    ensures BuildPrompt(chats, message) == PromptReference(chats, message)
    decreases |chats|
  {
    if |chats| > 1 {
      var first := RenderTurn(chats[0]);
      var rest := chats[1..];
      PromptMatchesReference(rest, message);
      BuildPromptCons(chats, message);
      assert first + "\n" + (Lines(rest) + "user: " + message) == first + "\n" + Lines(rest) + "user: " + message;
    } else if |chats| == 1 {
      assert RenderAll(chats) == [RenderTurn(chats[0])];
      assert Lines(chats) == RenderTurn(chats[0]) + "\n" + "";
    }
  }

  /** A stored exchange alone renders as its two lines before the new one. */
  lemma TwoTurnPrompt(message: string, reply: string, next: string)
    ensures BuildPrompt([Turn(User, message), Turn(Assistant, reply)], next)
         == "user: " + message + "\nassistant: " + reply + "\nuser: " + next
  {
    var u := RenderTurn(Turn(User, message));
    var a := RenderTurn(Turn(Assistant, reply));
    assert RenderAll([Turn(User, message), Turn(Assistant, reply)]) == [u, a];
    assert Join([u, a], "\n") == u + "\n" + a;
    Regroup("", message, reply, next);
  }

  /** The first prompt starts with a newline; once its exchange is stored,
      the next prompt repeats it without that newline, then the reply line
      and the next message line. */
  lemma FirstPromptThenNext(message: string, reply: string, next: string)
    ensures
      var grown := [Turn(User, message), Turn(Assistant, reply)];
      var previous := BuildPrompt([], message);
      previous == "\n" + "user: " + message &&
      BuildPrompt(grown, next) == previous[1..] + "\nassistant: " + reply + "\nuser: " + next
  {
    assert Join(RenderAll([]), "\n") == "";
    assert BuildPrompt([], message) == "\n" + "user: " + message;
    assert ("\n" + "user: " + message)[1..] == "user: " + message;
    TwoTurnPrompt(message, reply, next);
  }

  /** Once a transcript holds turns, each successful exchange of `message`
      and `reply` makes the next prompt the previous one followed by the
      reply line and the next message line. */
  lemma NextPromptExtends(chats: seq<Turn>, message: string, reply: string, next: string)
    requires chats != []
    ensures
      var grown := chats + [Turn(User, message), Turn(Assistant, reply)];
      BuildPrompt(grown, next) == BuildPrompt(chats, message) + "\nassistant: " + reply + "\nuser: " + next
  {
    var grown := chats + [Turn(User, message), Turn(Assistant, reply)];
    var lines := RenderAll(chats);
    var u := RenderTurn(Turn(User, message));
    var a := RenderTurn(Turn(Assistant, reply));
    assert u == "user: " + message;
    assert a == "assistant: " + reply;
    assert RenderAll(grown) == lines + [u] + [a];
    var j := Join(lines, "\n");
    JoinSnoc(lines, u, "\n");
    JoinSnoc(lines + [u], a, "\n");
    assert Join(RenderAll(grown), "\n") == j + "\n" + u + "\n" + a;
    Regroup(j, message, reply, next);
  }

  /** Regrouping the pieces of a prompt around its line separators. */
  lemma Regroup(j: string, message: string, reply: string, next: string)
    ensures j + "\n" + ("user: " + message) + "\n" + ("assistant: " + reply) + "\nuser: " + next
         == j + "\nuser: " + message + "\nassistant: " + reply + "\nuser: " + next
  {
    assert "\n" + "user: " == "\nuser: ";
    assert "\n" + "assistant: " == "\nassistant: ";
  }

  /** With no history the prompt is the user line after a newline. */
  lemma EmptyHistoryExample()
    ensures BuildPrompt([], "hi") == "\nuser: hi"
  {
    assert RenderAll([]) == [];
    assert "" + "\nuser: " == "\nuser: ";
  }

  /** A stored exchange is rendered line by line before the new message. */
  lemma TwoTurnHistoryExample()
    ensures BuildPrompt([Turn(User, "hi"), Turn(Assistant, "hello")], "bye")
         == "user: hi\nassistant: hello\nuser: bye"
  {
    FirstPromptThenNext("hi", "hello", "bye");
    var first := "\n" + "user: " + "hi";
    assert first[1..] == "user: hi";
    var p1 := "user: hi" + "\nassistant: ";
    assert p1 == "user: hi\nassistant: ";
    var p2 := p1 + "hello";
    assert p2 == "user: hi\nassistant: hello";
    var p3 := p2 + "\nuser: ";
    assert p3 == "user: hi\nassistant: hello\nuser: ";
    assert p3 + "bye" == "user: hi\nassistant: hello\nuser: bye";
  }

  // ---------------------------------------------------------------- service

  /** The user collection with the three chat handlers. `users` maps each
      registered id to its stored record. */
  class ChatService {
    var users: map<UserId, UserRecord>

    /** Every record is stored under its own id. */
    ghost predicate Valid()
      reads this
    {
      forall k :: k in users ==> users[k].id == k
    }

    constructor (initial: map<UserId, UserRecord>)
      requires forall k :: k in initial ==> initial[k].id == k
      ensures Valid() && users == initial
    {
      users := initial;
    }

    /** `User.findById(id)`; `fault` is the error the database throws, if any. */
    method FindById(id: UserId, fault: Option<string>) returns (r: Lookup)
      requires Valid()
      ensures r.LookupFailed? <==> fault.Some?
      ensures fault.Some? ==> r == LookupFailed(fault.value)
      ensures r.NotFound? <==> fault.None? && id !in users
      ensures r.Found? ==> id in users && r.user == users[id] && r.user.id == id
    {
      if fault.Some? {
        r := LookupFailed(fault.value);
      } else if id in users {
        r := Found(users[id]);
      } else {
        r := NotFound;
      }
    }

    /** `user.save()`: writes the whole record at once, or nothing when the
        database throws `fault`. */
    method Save(user: UserRecord, fault: Option<string>) returns (err: Option<string>)
      requires Valid()
      modifies this
      ensures Valid()
      ensures err == fault
      ensures fault.None? ==> users == old(users)[user.id := user]
      ensures fault.Some? ==> users == old(users)
    {
      err := fault;
      if fault.None? {
        users := users[user.id := user];
      }
    }

    /** `generateChatCompletion`: prompt the model with the transcript and
        the message; only when it answers, append the message and the reply
        and save. `complete` is the model; `findFault` and `saveFault` are
        what the database throws, if anything. */
    method GenerateChatCompletion(id: UserId, message: string, complete: string -> Completion,
                                  findFault: Option<string>, saveFault: Option<string>)
      returns (resp: Response)
      requires Valid()
      modifies this
      ensures Valid()
      ensures findFault.Some? ==> resp == ServerError(findFault.value) && users == old(users)
      ensures findFault.None? && id !in old(users) ==>
        resp == Response(401, Message(NotRegistered)) && users == old(users)
      ensures findFault.None? && id in old(users) ==>
        var chats := old(users)[id].chats;
        var outcome := complete(BuildPrompt(chats, message));
        if outcome.Failure? then
          resp == ServerError(outcome.msg) && users == old(users)
        else if saveFault.Some? then
          resp == ServerError(saveFault.value) && users == old(users)
        else
          var grown := chats + [Turn(User, message), Turn(Assistant, outcome.text)];
          resp == Response(200, Chats(grown)) && users == old(users)[id := UserRecord(id, grown)]
    {
      var found := FindById(id, findFault);
      match found {
        case LookupFailed(cause) =>
          resp := ServerError(cause);
        case NotFound =>
          resp := Response(401, Message(NotRegistered));
        case Found(user) =>
          var prompt := BuildPrompt(user.chats, message);
          var outcome := complete(prompt);
          match outcome {
            case Failure(cause) =>
              resp := ServerError(cause);
            case Success(reply) =>
              var updated := user.(chats := user.chats + [Turn(User, message)]);
              updated := updated.(chats := updated.chats + [Turn(Assistant, reply)]);
              assert updated.chats == user.chats + [Turn(User, message), Turn(Assistant, reply)];
              var err := Save(updated, saveFault);
              if err.Some? {
                resp := ServerError(err.value);
              } else {
                resp := Response(200, Chats(updated.chats));
              }
          }
      }
    }

    /** `sendChatsToUser`: the caller's stored transcript, read-only. */
    method SendChatsToUser(id: UserId, findFault: Option<string>) returns (resp: Response)
      requires Valid()
      ensures findFault.Some? ==> resp == ReportedError(findFault.value)
      ensures findFault.None? && id !in users ==> resp == Response(401, Text(NotRegistered))
      ensures findFault.None? && id in users ==> resp == Response(200, MessageChats("OK", users[id].chats))
    {
      var found := FindById(id, findFault);
      match found {
        case LookupFailed(cause) =>
          resp := ReportedError(cause);
        case NotFound =>
          resp := Response(401, Text(NotRegistered));
        case Found(user) =>
          if user.id != id {
            // "Permissions didn't match": a record found by id carries that id
            assert false;
          }
          resp := Response(200, MessageChats("OK", user.chats));
      }
    }

    /** `deleteChats`: empty the caller's transcript and save. */
    method DeleteChats(id: UserId, findFault: Option<string>, saveFault: Option<string>)
      returns (resp: Response)
      requires Valid()
      modifies this
      ensures Valid()
      ensures findFault.Some? ==> resp == ReportedError(findFault.value) && users == old(users)
      ensures findFault.None? && id !in old(users) ==>
        resp == Response(401, Text(NotRegistered)) && users == old(users)
      ensures findFault.None? && id in old(users) && saveFault.Some? ==>
        resp == ReportedError(saveFault.value) && users == old(users)
      ensures findFault.None? && id in old(users) && saveFault.None? ==>
        resp == Response(200, Message("OK")) && users == old(users)[id := UserRecord(id, [])]
    {
      var found := FindById(id, findFault);
      match found {
        case LookupFailed(cause) =>
          resp := ReportedError(cause);
        case NotFound =>
          resp := Response(401, Text(NotRegistered));
        case Found(user) =>
          if user.id != id {
            // "Permissions didn't match": a record found by id carries that id
            assert false;
          }
          var cleared := user.(chats := []);
          var err := Save(cleared, saveFault);
          if err.Some? {
            resp := ReportedError(err.value);
          } else {
            resp := Response(200, Message("OK"));
          }
      }
    }
  }

  /** Clearing a transcript and then reading it gives the empty transcript. */
  method DeleteThenRead(service: ChatService, id: UserId) returns (resp: Response)
    requires service.Valid() && id in service.users
    modifies service
    ensures service.Valid()
    ensures resp == Response(200, MessageChats("OK", []))
  {
    var deleted := service.DeleteChats(id, None, None);
    resp := service.SendChatsToUser(id, None);
  }

  /** A first exchange: an empty transcript, the message "2+2?", the model
      answers "4". */
  method FirstExchange() returns (resp: Response)
    ensures resp == Response(200, Chats([Turn(User, "2+2?"), Turn(Assistant, "4")]))
  {
    var service := new ChatService(map["u1" := UserRecord("u1", [])]);
    var model: string -> Completion := _ => Success("4");
    assert "u1" in service.users && service.users["u1"].chats == [];
    assert forall p :: model(p) == Success("4");
    resp := service.GenerateChatCompletion("u1", "2+2?", model, None, None);
    assert [] + [Turn(User, "2+2?"), Turn(Assistant, "4")] == [Turn(User, "2+2?"), Turn(Assistant, "4")];
  }
}
