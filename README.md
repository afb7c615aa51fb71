# Shooting the Star: scoring, progression and session logic in Dafny

This project models the logic of the browser game "Shooting the Star". The game
is a Next.js front end with a Phaser play scene. The model covers:

- the play scene's per-level counters: shots fired, hits, score, the win latch and
  the three millisecond clocks. Three events drive them: a shot, a bullet hitting a
  star, and a frame tick (`game_wrapper.dfy`, class `PlayScene`);
- the level scoring rule the scene, the game page and the end-of-level modal share:
  the required score `10 + (level - 1) * 10`, the rounded accuracy percentage, and
  the win condition "score reaches the target and accuracy is at least 60%"
  (`scoring.dfy`);
- the game page's `GameState` record, the six handlers that rebuild it, the
  constellation fact shown between levels, and the page's three state cells with
  the controls the page shows (`game_page.dfy`);
- the end-of-level modal: its heading, its target line, the Next Level button that
  exists only after a win, and its decorative stars (`fact_modal.dfy`);
- the leaderboard view: the constellation filter, the stable descending sort of a
  copy, the rank and constellation icons, and the summary figures (`leaderboard.dfy`);
- the stub login page and the API module's session helpers and interceptors over
  local storage, a string-to-string map (`login.dfy`, `api.dfy`, `local_storage.dfy`).

`js_math.dfy` models exact `Math.round` of a quotient and the decimal text of a
number. `wrappers.dfy` holds `Option`, the model's `null`.

Design choices:

- Numbers are integers. Engine frame deltas and timers are natural numbers of
  milliseconds. `Math.round(h / f * 100)` is computed exactly as
  `floor((200h + f) / (2f))`.
- The two shot handlers (mouse click and UP key) have identical bodies. Both are
  modelled by the single method `PlayScene.Fire`.
- `liveBullets` stands for the size of the scene's bullet group. A collision
  needs a live bullet, and each collision destroys its bullet. This gives the
  invariant `shotsHit + liveBullets == shotsFired`, so hits never outnumber shots
  and the displayed accuracy stays within 0..100.
- The calls the scene makes to `onWinnerAchieved` and `onGameEnd` are recorded in
  ghost fields (`winnerReports`, `endCalls`).
- `JSON.stringify` of a user record is a function parameter `stringify`. The
  stored user is opaque text, and `getCurrentUser` returns that text.
- Browser presence (`typeof window !== 'undefined'`) is the parameter `hasWindow`.

Three behaviours of the code worth noting:

- There is no "accuracy of zero shots is 100" function. The 100 is only the value
  shown before the first shot (`PlayScene.Create`). `Scoring.Accuracy` is never
  applied to zero shots.
- A win during play does not end the level. `handleWinnerAchieved` sets `isWinner`
  and leaves `isPlaying` as it was, so the page keeps the play scene mounted and the
  scene that reported the win keeps running.
- After a lost level the modal offers only Main Menu. There is no separate
  "back to level select" transition.

## Model

| member | source | states |
|---|---|---|
| JsMath.RoundDiv | game-client/components/GameWrapper.tsx:315 | the result r is Math.round(num/den) exactly: r - 1/2 <= num/den < r + 1/2 (halves round up, for any sign) |
| JsMath.IntToString | game-client/pages/leaderboard.tsx:126 | the template-literal text of an integer: for n >= 0, decimal digits that read back as n, with no leading zero and starting with '0' only for 0; for n < 0, a "-" followed by such digits of -n |
| JsMath.NatToStringRoundTrip | game-client/pages/leaderboard.tsx:126 | reading the decimal text of n back gives n |
| Scoring.RequiredScore | game-client/components/GameWrapper.tsx:389 | the score a level demands, 10 + (level-1)*10, equals 10*level |
| Scoring.RequiredScoreStep | game-client/components/GameWrapper.tsx:433-444 | the target grows by exactly 10 from one level to the next, so it strictly increases |
| Scoring.Accuracy | game-client/components/GameWrapper.tsx:380 | the accuracy is the integer nearest to 100*hits/fired (halves up), and it lies in 0..100 whenever hits <= fired |
| Scoring.AccuracyPerfect | game-client/components/GameWrapper.tsx:315 | when every shot hit, the accuracy is exactly 100 |
| Scoring.MeetsWinCondition | game-client/components/GameWrapper.tsx:389-392 | the win condition holds iff score >= 10*level and accuracy >= 60 |
| Scoring.MeetsWinConditionMonotone | game-client/pages/game.tsx:70-73 | more score or accuracy never loses a win, and a win at a level is also a win at every lower level |
| GameWrapper.PlayScene.Create | game-client/components/GameWrapper.tsx:452-458 | create clears shotsFired, shotsHit, currentScore, the three timers and the win latch, and shows score 0, time 0 and accuracy 100; the target shown is 10 + (level-1)*10 |
| GameWrapper.PlayScene.Fire | game-client/components/GameWrapper.tsx:312-317 | each shot, by mouse click or by UP key (lines 352-357 are identical), adds exactly one shot and one live bullet and leaves score and hits alone; the accuracy shown becomes round(100*hits/fired), within 0..100; the scene invariant is kept |
| GameWrapper.PlayScene.Hit | game-client/components/GameWrapper.tsx:370-423 | a collision adds 10 to the score and 1 to the hits and uses up one bullet; the win branch is taken iff score >= 10+(level-1)*10, accuracy >= 60 and no earlier win this level; onWinnerAchieved then receives (score, accuracy), at most once per scene instance; score == 10*hits stays true |
| GameWrapper.PlayScene.Tick | game-client/components/GameWrapper.tsx:496-534 | a frame advances both clocks by delta and shows floor(gameTime/1000) seconds; a star spawns iff the spawn timer exceeds 1000, and then the timer returns to 0; onGameEnd is called iff levelTime > 30000, on every such frame and never before |
| GamePage.InitialState | game-client/pages/game.tsx:47-54 | a session starts not playing, not paused, score 0, accuracy 100, level 1, not a winner |
| GamePage.GameStart | game-client/pages/game.tsx:58-66 | start sets isPlaying, clears isWinner, resets score/accuracy to 0/100 and keeps level and isPaused |
| GamePage.GameEnd | game-client/pages/game.tsx:68-81 | end stores score and accuracy, stops play, keeps level and isPaused, and sets isWinner iff score >= RequiredScore(level) and accuracy >= 60 (both conditions) |
| GamePage.WinnerAchieved | game-client/pages/game.tsx:89-96 | a reported win sets isWinner and records score and accuracy; isPlaying, isPaused and level are unchanged |
| GamePage.Pause | game-client/pages/game.tsx:104-106 | pause sets isPaused and changes no other field |
| GamePage.Resume | game-client/pages/game.tsx:108-110 | resume clears isPaused and changes no other field |
| GamePage.NextLevel | game-client/pages/game.tsx:112-122 | next level adds exactly 1 to level, plays again with isWinner false, score 0 and accuracy 100, and keeps isPaused |
| GamePage.PlaySceneVisibility | game-client/pages/game.tsx:236-243 | the scene is shown (playing and not paused) after Start iff not paused, never after the level ends or a pause, after Resume iff playing, after Next Level iff not paused, and a win leaves it as it was |
| GamePage.FactIndex | game-client/pages/game.tsx:84 | for every level >= 1, (level-1) % 5 is a valid index into the five facts, and levels 1..5 get facts 0..4 |
| GamePage.FactPeriodic | game-client/pages/game.tsx:84-85 | levels n and n+5 show the same fact |
| GamePage.RunLevel | game-client/pages/game.tsx:117 | after any sequence of handler calls, the level has grown by exactly the number of next-level calls, so it never decreases |
| GamePage.Page.constructor | game-client/pages/game.tsx:47-56 | the page starts in the initial state, with the modal closed and the first fact selected |
| GamePage.Page.HandleGameStart | game-client/pages/game.tsx:58-66 | the state cell becomes GameStart of the previous state |
| GamePage.Page.HandleGameEnd | game-client/pages/game.tsx:68-87 | the state cell becomes GameEnd of the previous state; the modal opens on the fact of the current level |
| GamePage.Page.HandleWinnerAchieved | game-client/pages/game.tsx:89-102 | the state cell records the win; the modal opens at once on the level's fact |
| GamePage.Page.HandlePause | game-client/pages/game.tsx:104-106 | the state cell becomes Pause of the previous state |
| GamePage.Page.HandleResume | game-client/pages/game.tsx:108-110 | the state cell becomes Resume of the previous state |
| GamePage.Page.HandleNextLevel | game-client/pages/game.tsx:112-122 | the modal closes and the state cell becomes NextLevel of the previous state; level >= 1 and "an open modal shows the current level's fact" are kept |
| GamePage.Page.Press | game-client/pages/game.tsx:196-274 | a control acts only when the page shows it: Start when neither playing nor in the modal, Pause while the scene is shown (playing and not paused), Resume while paused, modal buttons while the modal is open; Next Level acts iff the modal is open and isWinner; the level changes only through Next Level after a win; the modal closes exactly when Next Level acts and otherwise stays as it was |
| FactModal.Buttons | game-client/components/FactModal.tsx:72-96 | Main Menu is always offered, first; Next Level is offered iff isWinner; no button repeats |
| FactModal.Invokes | game-client/components/FactModal.tsx:73-93 | Next Level invokes onNext, and Main Menu invokes onClose |
| FactModal.Headline | game-client/components/FactModal.tsx:35-47 | the modal reads "Level Complete!" iff isWinner and "Level Failed" iff not |
| FactModal.Target | game-client/components/FactModal.tsx:57 | the displayed target equals the required score the win checks use |
| FactModal.RequiredAccuracy | game-client/components/FactModal.tsx:57 | the displayed accuracy requirement equals the 60% the win checks use |
| FactModal.DecorativeStars | game-client/components/FactModal.tsx:100-108 | there are 8 stars; star i sits at left 10+10i, within 10..80, and at top 20+(i%3)*20, one of 20, 40 or 60 |
| Leaderboard.Select | game-client/pages/leaderboard.tsx:116-118 | a filter result is no longer than its input, and all its entries come from the input and satisfy the criterion |
| Leaderboard.FilteredData | game-client/pages/leaderboard.tsx:116-118 | no more rows than the data, each from the data and either "All" is selected or it is in the selected constellation |
| Leaderboard.SelectCount | game-client/pages/leaderboard.tsx:116-118 | each matching entry is kept as often as it occurs, and every other entry is dropped |
| Leaderboard.SelectAppend | game-client/pages/leaderboard.tsx:116-118 | filtering distributes over concatenation, so the original relative order is kept |
| Leaderboard.FilterAll | game-client/pages/leaderboard.tsx:116-118 | with "All" selected the filter returns every entry in its original order |
| Leaderboard.FilterExactly | game-client/pages/leaderboard.tsx:116-118 | with a constellation selected, the filter keeps exactly that constellation's entries, with their multiplicities |
| Leaderboard.MockOptionsNonEmpty | game-client/pages/leaderboard.tsx:16-109 | for the mock data, every option other than "All" selects at least one entry |
| Leaderboard.Insert | game-client/pages/leaderboard.tsx:120 | insertion adds exactly the one entry to the multiset of entries |
| Leaderboard.InsertSorted | game-client/pages/leaderboard.tsx:120 | inserting into a descending list keeps it descending |
| Leaderboard.SortDesc | game-client/pages/leaderboard.tsx:120 | the sorted copy is a permutation of the filtered list and is non-increasing in the chosen column |
| Leaderboard.SortedData | game-client/pages/leaderboard.tsx:120 | the rows hold each entry of the selected constellation (every entry for "All") exactly as often as the data does, and no other, in descending order of the chosen column |
| Leaderboard.SortStable | game-client/pages/leaderboard.tsx:120 | entries with equal keys keep their relative order (the comparator sort is stable) |
| Leaderboard.RankIcon | game-client/pages/leaderboard.tsx:122-127 | ranks 1, 2 and 3 get the gold, silver and bronze medals; every other rank gets "#" followed by its decimal digits, and only those start with "#"; ranks above 3 have no leading zero |
| Leaderboard.ConstellationIcon | game-client/pages/leaderboard.tsx:129-138 | each of the five known constellations gets its own icon, and any other name gets the default star |
| Leaderboard.ConstellationIconsMatchFacts | game-client/pages/leaderboard.tsx:129-138 | the leaderboard icon of each constellation equals the image of its fact on the game page |
| Leaderboard.MaxScore | game-client/pages/leaderboard.tsx:322 | the highest score is the score of some entry and is at least every entry's score |
| Leaderboard.Stats | game-client/pages/leaderboard.tsx:314-331 | the count is the length; highest score and average accuracy exist iff the list is non-empty; the average is round(sum/length) |
| Leaderboard.StatsOfSortedView | game-client/pages/leaderboard.tsx:316-328 | the summary of the sorted rows equals the summary of the filtered entries |
| Leaderboard.HighestScoreIsFirstRow | game-client/pages/leaderboard.tsx:322 | sorted by score, the highest score is the first row's score |
| Api.IsAuthenticated | game-client/utils/api.ts:110-113 | authenticated iff a browser is present and the "token" item exists and is non-empty |
| Api.GetCurrentUser | game-client/utils/api.ts:116-120 | the stored user text iff a browser is present and the "user" item is non-empty; otherwise null |
| Api.SetAuth | game-client/utils/api.ts:123-127 | with a browser, storage gains exactly the "token" and "user" entries given; without one, nothing changes |
| Api.ClearAuth | game-client/utils/api.ts:130-134 | with a browser, exactly "token" and "user" are removed; without one, nothing changes |
| Api.SetAuthLogsIn | game-client/utils/api.ts:110-127 | after setAuth with a non-empty token the session is authenticated, and a non-empty user is returned |
| Api.SetAuthFrame | game-client/utils/api.ts:123-127 | setAuth adds only the two keys, and every other key keeps its value |
| Api.ClearAuthLogsOut | game-client/utils/api.ts:130-134 | after clearAuth there is no session and no user, and every other key remains |
| Api.HandleError | game-client/utils/api.ts:137-145 | the message is the server's non-empty error if present, else the error's non-empty message, else "An unexpected error occurred"; it is never empty |
| Api.AuthorizeRequest | game-client/utils/api.ts:15-20 | the config gets `Authorization: Bearer <token>` iff a non-empty token is stored, otherwise the headers are unchanged; the same config is returned |
| Api.OnResponseError | game-client/utils/api.ts:30-37 | a 401 removes exactly "token" and "user", any other status leaves storage alone, and the error is always rejected again |
| Login.InputChange | game-client/pages/login.tsx:24-29 | the named field takes the new value and the other fields are unchanged |
| Login.Decide | game-client/pages/login.tsx:39-71 | login accepts iff email is "demo@example.com" and password is "password", with user id "1", "DemoUser" and the entered email; register accepts iff username, email and password are all non-empty, with user id "2" and the entered username and email |
| Login.AcceptedSubmitAuthenticates | game-client/pages/login.tsx:43-48 | the storage an accepted submit leaves counts as authenticated for the API helpers, with the stored user |
| Login.Page.constructor | game-client/pages/login.tsx:16-22 | the page starts in login mode, not loading, with an empty form |
| Login.Page.HandleInputChange | game-client/pages/login.tsx:24-29 | the form becomes InputChange of the previous form |
| Login.Page.ToggleMode | game-client/pages/login.tsx:241-244 | the switch flips isLogin and empties all three fields |
| Login.Page.HandleSubmit | game-client/pages/login.tsx:31-77 | the outcome is Decide of the mode and form; an accepted submit writes exactly token "demo-jwt-token" and the user record, a rejected one writes nothing; isLoading is set true then false, ending false |
| Login.Page.HandleDemoLogin | game-client/pages/login.tsx:79-97 | demo login always writes the token and the DemoPlayer record; isLoading goes true then false |

## Left out

- Phaser engine work is not modelled: scene config, asset loading, sprites, tweens, physics, collision detection itself, resizing and the dynamic import. Shots, collisions and frame ticks are the model's events.
- Not modelled: the `!this.game || this.game.destroyed` guards in `create` and `update`, player movement, the six initial stars, star expiry after ten seconds and the number of stars on screen. These are engine and timer behaviour. A collision is assumed to find a star.
- Randomness (`Phaser.Math.Between`, `FloatBetween`, `Math.random` backgrounds) is left out because it is purely visual.
- Floating point: accuracy and averages use exact half-up rounding. What `Math.round` does on a float that lands next to a .5 is not modelled. The progress-bar fraction `Math.min(levelTime / 30000, 1)` is left out.
- The values passed to `onGameEnd` come from React state captured by an effect closure. The model treats them as the inputs of `HandleGameEnd`. React re-rendering and remounting are not modelled. The scene's effect registers no cleanup: the teardown function is returned from the `.then` callback of the dynamic import, so React never receives it. The effect depends on `onGameEnd`, which the game page rebuilds on every render, so each re-render of the page while the scene is mounted (a win, for one) starts another Phaser game from zero next to the first. Pausing removes the component but never destroys its game. None of these extra or orphaned game instances is modelled.
- React and framer-motion rendering, `toLocaleString`/`toLocaleDateString`, toasts, `router.push`, the simulated `await` delays and `setTimeout` are left out. Main Menu and Exit only navigate, so they change no modelled state.
- The catch branches of `handleSubmit` and `handleDemoLogin` are not modelled because nothing modelled throws (a full-storage error from `setItem` is not modelled). The `finally` that clears `isLoading` is modelled.
- The axios wrappers (`authAPI`, `gameAPI`, `leaderboardAPI`) are foreign network calls and are left out. So are the `window.location` redirect on a 401, the request interceptor's error path and the response interceptor's success path, which only pass their argument through.
- `JSON.stringify` is the parameter `stringify`. `JSON.parse` is not modelled.
- Api.GetCurrentUser: returns the stored text instead of the parsed object, so a `JSON.parse` failure on malformed text is not modelled.
- Leaderboard.ConstellationIcon: JavaScript object lookups such as `icons["constructor"]` return inherited prototype members. That quirk is not modelled; such names get the default star here.
- Login.InputChange: the field name is one of the form's three inputs. An arbitrary `name` attribute, which would add a new key to the form, is not modelled.
- Scoring.Accuracy: requires at least one shot. Every caller in the scene has fired at least once, and the 100 shown before the first shot belongs to `PlayScene.Create`.
- GamePage.FactIndex: requires level >= 1, which the page always keeps (`Page.Valid`). This avoids JavaScript's truncating `%` on negative levels.
- GameWrapper.PlayScene.Hit: the win latch `winnerAchieved` and the one-report guarantee hold per scene instance, not per level, because the page can start several instances during one level (see above).
- Leaderboard.Stats: for an empty list the page renders `Math.max()` of nothing as `-Infinity` and the average `0 / 0` as `NaN%`. The model returns `None` for both instead of those float values.
- `onWinnerAchieved` is optional in the scene's props. The game page always passes it, so the model always calls it.
- The leaderboard's selected-constellation and sort-key state cells are the plain arguments `selected` and `sortBy`. Sorting works on a copy, and the leaderboard data is an immutable value.
- game-client/pages/index.tsx (only a `mounted` flag) and game-client/tailwind.config.js (static configuration) are not part of this model.
