/** The controller itself, in the imperative form of the Java class: the
    static fields `gameStarted` and `PongShots` become the fields of one
    Controller object standing for the whole process, and each endpoint is a
    method that tests and assigns them in place. Every method is tied to the
    matching function of GameSpec, where the lemmas about sequences of
    requests live. */
module PongShots {
  import opened Wrappers
  import opened JavaInt
  import opened Http
  import opened GameSpec

  class Controller {
    var gameStarted: bool
    var pongShots: Int32

    /** The two fields as a GameSpec state. */
    function Snapshot(): State
      reads this
    {
      State(gameStarted, pongShots)
    }

    /** The fields' declared initial values: no game, counter 3. */
    constructor ()
      ensures Snapshot() == Initial
    {
      gameStarted := false;
      pongShots := 3;
    }

    /** `GET /`: the welcome object, built entry by entry; reads no state. */
    method Home(detailed: bool, now: int) returns (body: Body)
      ensures body == HomeBody(detailed, now)
    {
      body := map[];
      body := body["message" := Text(WelcomeMessage)];
      body := body["status" := Text(RunningStatus)];
      if detailed {
        body := body["version" := Text(Version)];
        body := body["timestamp" := Number(now)];
      }
    }

    /** `POST /game/start`. */
    method StartGame() returns (r: Response)
      modifies this
      ensures Step(Snapshot(), r) == GameSpec.StartGame(old(Snapshot()))
      ensures old(gameStarted) ==> unchanged(this) && r.status == NotModified
      ensures !old(gameStarted) ==> gameStarted && pongShots == 0 && r.status == Ok && ShotsOf(r) == Some(0)
    {
      if gameStarted {
        return MessageReply(NotModified, AlreadyStarted);
      }
      gameStarted := true;
      pongShots := 0;
      r := Response(Ok, map["message" := Text(StartedMessage), "pongShots" := Number(pongShots)]);
    }

    /** `GET /game/status`: reports both fields and changes neither. */
    method GameStatus() returns (r: Response)
      ensures r == GameSpec.GameStatus(Snapshot()).response
      ensures r.status == Ok && ShotsOf(r) == Some(pongShots) && r.body["gameStarted"] == Flag(gameStarted)
    {
      var body := map[];
      body := body["gameStarted" := Flag(gameStarted)];
      body := body["pongShots" := Number(pongShots)];
      r := Response(Ok, body);
    }

    /** `POST /game/reset`. */
    method ResetGame() returns (r: Response)
      modifies this
      ensures Step(Snapshot(), r) == GameSpec.ResetGame(old(Snapshot()))
      ensures !old(gameStarted) ==> unchanged(this) && r.status == BadRequest
      ensures old(gameStarted) ==> gameStarted && pongShots == 0 && r.status == Ok
    {
      if !gameStarted {
        return MessageReply(BadRequest, NotStartedMessage);
      }
      pongShots := 0;
      r := MessageReply(Ok, ResetMessage);
    }

    /** `POST /game/stop`. */
    method StopGame() returns (r: Response)
      modifies this
      ensures Step(Snapshot(), r) == GameSpec.StopGame(old(Snapshot()))
      ensures !old(gameStarted) ==> unchanged(this) && r.status == BadRequest
      ensures old(gameStarted) ==> !gameStarted && pongShots == 0 && r.status == Ok && ShotsOf(r) == Some(0)
    {
      if !gameStarted {
        return MessageReply(BadRequest, NotStartedMessage);
      }
      gameStarted := false;
      pongShots := 0;
      r := Response(Ok, map["message" := Text(StoppedMessage), "pongShots" := Number(pongShots)]);
    }

    /** `POST /game/pongshot` with an optional JSON body. */
    method PongShot(shotData: Option<map<string, Int32>>) returns (r: Response)
      modifies this
      ensures Step(Snapshot(), r) == GameSpec.PongShot(old(Snapshot()), shotData)
      ensures !Accepts(old(Snapshot()), shotData) ==> unchanged(this) && r.status == BadRequest
      ensures Accepts(old(Snapshot()), shotData) ==>
                && gameStarted && r.status == Ok
                && pongShots == Add32(old(pongShots), PowerOf(shotData).value)
                && ShotsOf(r) == Some(pongShots as int)
    {
      if !gameStarted {
        return MessageReply(BadRequest, ShotNotStarted);
      }
      if shotData.None? || "power" !in shotData.value {
        return MessageReply(BadRequest, NoPowerMessage);
      }
      var power := shotData.value["power"];
      if power < 1 || power > 100 {
        return MessageReply(BadRequest, PowerRangeMessage);
      }
      pongShots := Add32(pongShots, power);
      r := Response(Ok, map["message" := Text(ShotPrefix + ToDecimal(power)), "pongShots" := Number(pongShots)]);
    }
  }

  /** A client session: a status query that reports 3, start, two shots,
      reset, status, stop, a shot refused because no game runs, a new start,
      and a shot of power 0 refused for its range. Each outcome follows from
      the methods' contracts alone. */
  method StartShootResetStop() {
    var c := new Controller();
    var r := c.GameStatus();
    assert ShotsOf(r) == Some(3);
    r := c.StartGame();
    assert r.status == Ok && ShotsOf(r) == Some(0);
    r := c.PongShot(Some(map["power" := 50]));
    assert r.status == Ok && ShotsOf(r) == Some(50);
    assert ToDecimal(50) == "50" by {
      assert NatToDecimal(5) == "5" && DigitChar(0) == '0';
    }
    assert ShotPrefix + "50" == "Received pong shot with power 50";
    assert MessageOf(r) == Some("Received pong shot with power 50");
    r := c.PongShot(Some(map["power" := 60]));
    assert r.status == Ok && ShotsOf(r) == Some(110);
    r := c.ResetGame();
    assert r.status == Ok;
    r := c.GameStatus();
    assert ShotsOf(r) == Some(0) && r.body["gameStarted"] == Flag(true);
    r := c.StopGame();
    assert r.status == Ok && ShotsOf(r) == Some(0) && !c.gameStarted;
    r := c.PongShot(Some(map["power" := 10]));
    assert r.status == BadRequest && MessageOf(r) == Some(ShotNotStarted);
    r := c.StartGame();
    r := c.PongShot(Some(map["power" := 0]));
    assert r.status == BadRequest && MessageOf(r) == Some(PowerRangeMessage) && c.pongShots == 0;
  }
}
