# PongShots in Dafny

PongShots is a small Spring web service whose whole logic sits in one
controller. Two static fields hold the state: `gameStarted`, which is false at
first, and the counter `PongShots`, which starts at 3. The endpoints are:

- `home` (`GET /`) returns a welcome object.
- `startGame`, `resetGame` and `stopGame` turn the game on and off and zero the
  counter.
- `gameStatus` reports both fields.
- `pongShot` adds a shot's `power` to the counter once three checks have passed:
  the game must be running, the body must have a `power` entry, and that power
  must lie between 1 and 100.

Each handler returns a status (200, 304 or 400) and a JSON object.

The project has five modules:

- `Wrappers` (wrappers.dfy) defines `Option`.
- `JavaInt` (java_int.dfy) models the two Java `int` behaviours the controller
  relies on. The first is the 32-bit wrap-around of `+`. The second is the
  decimal text that `"..." + power` produces. Its inverse is the parser `ParseDecimal`, and a
  round-trip lemma connects the two.
- `Http` (http.dfy) defines the response: a status, and a body that is a map
  from keys to strings, numbers and booleans.
- `GameSpec` (game_spec.dfy) is the controller as a pure state machine.
  `State` holds the two fields, `Initial` holds their declared values, and
  there is one function per endpoint. `Handle` dispatches a `Request`. `Run`
  and `Replies` serve a whole sequence of requests. The lemmas about sequences
  of requests are here.
- `PongShots` (controller.dfy) has the class `Controller`. Its fields
  `gameStarted` and `pongShots` are the Java static fields, and one object
  stands for the process-wide state. Each handler is a method that tests and
  assigns the fields in place. Each method's `ensures` ties the new fields and
  the reply to the matching `GameSpec` function, and spells out the
  transition. `StartShootResetStop` is a client session: a status query
  that reports 3, start, shots of 50 and 60, reset, status, stop, a shot
  refused because no game runs, a new start, and a shot of power 0 refused
  for its range. The session follows from the method contracts alone.

The counter starts at 3 (Controller.java:14), so a status query before any
start reports 3 (`StatusBeforeAnyStart`).

## Model

| member | source | states |
|---|---|---|
| `JavaInt.Add32` | Java/app/src/main/java/org/pongshots/Controller.java:90 | The result is a Java `int` congruent to `a + b` modulo 2^32. It equals `a + b` when no overflow happens, and is negative when the sum passes `Integer.MAX_VALUE`. |
| `JavaInt.NatToDecimal` | Java/app/src/main/java/org/pongshots/Controller.java:91 | The decimal text of a natural number is non-empty, made of digits only, and has no leading zero (it starts with `0` only when it is `"0"`). |
| `JavaInt.ToDecimal` | Java/app/src/main/java/org/pongshots/Controller.java:91 | The text an `int` becomes in string concatenation starts with `-` exactly when the number is negative. After the sign come one or more digits with no leading zero (a leading `0` only in `"0"`). |
| `JavaInt.NatToDecimalValue` | Java/app/src/main/java/org/pongshots/Controller.java:91 | The digits of `n` denote `n`. |
| `JavaInt.DecimalRoundTrip` | Java/app/src/main/java/org/pongshots/Controller.java:91 | Parsing the concatenated text of any `int` gives back that `int`. |
| `JavaInt.DecimalInjective` | Java/app/src/main/java/org/pongshots/Controller.java:91 | Two `int`s with the same text are equal. |
| `Http.MessageReply` | Java/app/src/main/java/org/pongshots/Controller.java:34 | A message-only reply has the given status and a body holding exactly the key `message` with the given text; no `pongShots`. |
| `GameSpec.HomeBody` | Java/app/src/main/java/org/pongshots/Controller.java:17-29 | The welcome object always has `message` and `status` = "running". `version` = "1.0.0" and `timestamp` = the clock are present exactly when `detailed` is set. There are no other keys. |
| `GameSpec.StartGame` | Java/app/src/main/java/org/pongshots/Controller.java:31-41 | A game is running afterwards. A running game gives exactly the message-only reply 304 "Game is already started." and an unchanged state. A stopped game gives 200, a counter of 0, and a reply holding exactly `message` "Game has started successfully." and `pongShots` 0. |
| `GameSpec.GameStatus` | Java/app/src/main/java/org/pongshots/Controller.java:43-49 | Returns 200 with exactly `gameStarted` and `pongShots`, both equal to the state. The state is unchanged. |
| `GameSpec.ResetGame` | Java/app/src/main/java/org/pongshots/Controller.java:51-59 | `gameStarted` is kept. A stopped game gives exactly the message-only reply 400 "Game has not started yet." and nothing changes. A running game gives a counter of 0 and the message-only reply 200 "Game has been reset successfully.", with no `pongShots`. |
| `GameSpec.StopGame` | Java/app/src/main/java/org/pongshots/Controller.java:61-71 | No game is running afterwards. A stopped game gives exactly the message-only reply 400 "Game has not started yet." and nothing changes. A running game gives 200, a counter of 0, and a reply holding exactly `message` "Game has been stopped and reset." and `pongShots` 0. |
| `GameSpec.PowerOf` | Java/app/src/main/java/org/pongshots/Controller.java:81-85 | A power is found exactly when a body is present and holds the key `power`, and it is that entry's value. |
| `GameSpec.PongShot` | Java/app/src/main/java/org/pongshots/Controller.java:73-93 | Returns 200 exactly when the game runs and the power is in 1..100. Otherwise the state is unchanged and the reply is the message-only 400 whose message the first failing check picks. On success the counter becomes `Add32(counter, power)` and the reply holds exactly `message` (the prefix and the power's decimal text) and `pongShots` (the new counter). Without overflow the counter rises strictly. |
| `GameSpec.Handle` | Java/app/src/main/java/org/pongshots/Controller.java:17-93 | Any non-200 reply leaves the state unchanged. `home` and status always answer 200 and change nothing. Every endpoint preserves `Consistent`: a stopped game has counter 0 unless no game has ever started. The status code is 304 exactly for a start on a running game. |
| `GameSpec.Sum` | Java/app/src/main/java/org/pongshots/Controller.java:86-90 | A sum of in-range powers lies between one and a hundred per shot. |
| `GameSpec.RunKeepsConsistent` | Java/app/src/main/java/org/pongshots/Controller.java:14-93 | Every state reached from a consistent state is consistent, over any sequence of requests. |
| `GameSpec.NoStartNoChange` | Java/app/src/main/java/org/pongshots/Controller.java:51-79 | When no game runs and no start request comes, the state never changes. Every reset, stop and shot in the sequence is answered 400. |
| `GameSpec.StatusBeforeAnyStart` | Java/app/src/main/java/org/pongshots/Controller.java:14-49 | From the declared initial values, any requests without a start leave status reporting `gameStarted` false and `pongShots` 3. |
| `GameSpec.StartTwice` | Java/app/src/main/java/org/pongshots/Controller.java:33-40 | A second start answers 304 "Game is already started." and leaves the state exactly as the first start left it. |
| `GameSpec.StartThenStopOrReset` | Java/app/src/main/java/org/pongshots/Controller.java:37-68 | From any state, start then stop gives no game and counter 0. Start then reset gives a running game and counter 0. |
| `GameSpec.CounterNeverDecreases` | Java/app/src/main/java/org/pongshots/Controller.java:33-92 | With no reset or stop, a running game stays running. Its counter never decreases and grows by at most 100 per request, while the total stays within `int`. |
| `GameSpec.ShotsAccumulate` | Java/app/src/main/java/org/pongshots/Controller.java:76-92 | On a running game, shots with powers in 1..100 are all accepted whatever the counter, and the game keeps running. The counter ends congruent modulo 2^32 to the old counter plus the sum of the powers. While that total stays within `int`, the counter is exactly that total. |
| `GameSpec.ShotMessageNamesPower` | Java/app/src/main/java/org/pongshots/Controller.java:91 | An accepted shot's message is the prefix followed by text that parses back to the power sent. |
| `GameSpec.CounterWrapsAtMaxInt` | Java/app/src/main/java/org/pongshots/Controller.java:90 | A shot of power 1 on a counter at `Integer.MAX_VALUE` wraps the counter to `Integer.MIN_VALUE`. |
| `PongShots.Controller.constructor` | Java/app/src/main/java/org/pongshots/Controller.java:14-15 | The fields start as `gameStarted` false and counter 3. |
| `PongShots.Controller.Home` | Java/app/src/main/java/org/pongshots/Controller.java:17-29 | The map built entry by entry is the welcome object of `HomeBody`. |
| `PongShots.Controller.StartGame` | Java/app/src/main/java/org/pongshots/Controller.java:31-41 | The new fields and the reply match `GameSpec.StartGame`. If a game was running, no field changes and the reply is 304. Otherwise the game runs, the counter is 0 and the reply is 200 reporting 0. |
| `PongShots.Controller.GameStatus` | Java/app/src/main/java/org/pongshots/Controller.java:43-49 | Changes nothing. The map built entry by entry reports 200 with both fields. |
| `PongShots.Controller.ResetGame` | Java/app/src/main/java/org/pongshots/Controller.java:51-59 | Matches `GameSpec.ResetGame`. With no game, no field changes and the reply is 400. With a game, it keeps running, the counter is 0 and the reply is 200. |
| `PongShots.Controller.StopGame` | Java/app/src/main/java/org/pongshots/Controller.java:61-71 | Matches `GameSpec.StopGame`. With no game, no field changes and the reply is 400. With a game, the game stops, the counter is 0 and the reply is 200 reporting 0. |
| `PongShots.Controller.PongShot` | Java/app/src/main/java/org/pongshots/Controller.java:73-93 | Matches `GameSpec.PongShot`. A rejected shot changes no field and gets 400. An accepted shot sets the counter to `Add32(old counter, power)`, keeps the game running and reports the new counter. |

## Left out

- Spring routing, annotations, `ResponseEntity` construction and JSON encoding are not modelled. A reply is a status and a map. `home` returns a bare map, which Spring sends with 200, and the model gives it status 200.
- The wall clock read by `home` is not modelled. The time is the parameter `now`.
- Concurrency is not modelled. The static fields are shared by request threads with no synchronisation. The model treats each handler call as atomic and the calls as sequential.
- A JSON body whose `power` is `null` is not modelled, because unboxing it throws at run time. Numbers outside the `int` range are not modelled either, because the framework refuses them before the handler runs. The body's values are Java `int`s.
- The unused `UnionType` import is not modelled.
- A 304 reply carries no content on the wire, so the servlet container drops the body of `startGame`'s 304 and a client never receives "Game is already started.". The model keeps the body the handler returns.
