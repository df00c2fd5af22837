# Card album and round timer of a card-matching minigame

This project models, in Dafny, the two pieces of logic in the game's Unity scripts.

- **The album** (`Assets/Script/AlbumManager.cs`). It loads two CSV tables that are shipped as text resources:
  - the unit table gives card id and sprite path;
  - the description table gives id, description, video URL and video title.
  It also loads the saved user data, which is high score plus the ids of cards answered correctly. It instantiates one album card per unit row with at least two fields, so a row without a comma (such as the empty line after a final line break) gets no card. A card is unlocked exactly when the user data lists its id. Its click then runs `ShowDetail`, which opens the detail panel when the description table has a row for its id. Otherwise it is locked (its click only logs a message).
- **The round** (`Assets/Script/GameManager.cs`). Each hand slot gets a sprite and one click listener reporting its own index. A random slot is chosen as the correct one and its sprite is copied to the problem card. A countdown starts from the time limit, is decremented on every frame and, when it reaches zero or less, stops and judges the round incorrect exactly once.

The modules are:
- `Wrappers` (`wrappers.dfy`): `Option`.
- `Text` (`text.dfy`): .NET's `String.Split(char)` and its inverse `Join`, with the round trips proved both ways.
- `Album` (`album.dfy`): the parsing stated as functions on the table text, the lemmas about them, and the class `AlbumManager` whose loops are proved to produce exactly those functions' values.
- `Game` (`game.dfy`): the countdown stated as functions (`Tick` for one frame, `Run` for many), Unity's `Random.Range`, and the class `GameManager`, whose methods are proved against them.

Time is counted in whole milliseconds. The 10-second limit of `GameManager.cs:16` is `DefaultTimeLimit == 10000`, and a frame's `Time.deltaTime` is a `nat` parameter. The random draw of `Random.Range` is a `nat` parameter `roll`, and `RandomRange` maps it into the range. The saved file's content is a parameter: `None` when the file does not exist.

`GameManager.cs` does not compile as written. Its `Start` calls `StartGame` but the method is spelled `StargGame`. It also has `resultPanel.setActive` and `choicePanel.setActive` for `SetActive`, `handCards{i}` for `handCards[i]`, `Lentgh` for `Length`, and `timerText.GameObject` for `timerText.gameObject`. The model follows the evident intent of each. `GetRandomSprtite` and `ShowResult` are not defined anywhere, so:
- the hand's sprites are a parameter of `SetHandCards`;
- a shown judgment is an entry appended to the `results` log (`false` means incorrect).

## Model

| member | source | states |
|---|---|---|
| `Text.Split` | Assets/Script/AlbumManager.cs:82 | a line splits into one field more than it has commas, and no field contains the separator |
| `Text.JoinSplit` | Assets/Script/AlbumManager.cs:82 | joining the fields of a split with the separator gives back the original line |
| `Text.SplitJoin` | Assets/Script/AlbumManager.cs:82 | splitting separator-free fields joined by the separator gives back exactly those fields |
| `Text.SplitAtFirst` | Assets/Script/AlbumManager.cs:80 | the text before the first line break is the first line, and the rest splits independently |
| `Text.SplitWithoutSeparator` | Assets/Script/AlbumManager.cs:80 | a text with no line break is a single line |
| `Album.UserDataFrom` | Assets/Script/AlbumManager.cs:60-71 | with no save file the user data is high score 0 and no correct cards; otherwise it is the saved data |
| `Album.ParseCard` | Assets/Script/AlbumManager.cs:82-86 | a unit row yields a card exactly when it has at least one comma (two fields) |
| `Album.ParseDescription` | Assets/Script/AlbumManager.cs:98-107 | a description row yields an entry exactly when it has at least three commas (four fields) |
| `Album.CardRowFields` | Assets/Script/AlbumManager.cs:82-86 | field 0 becomes `uniqueId`, field 1 becomes `spritePath`, and any further fields are ignored |
| `Album.DescriptionRowFields` | Assets/Script/AlbumManager.cs:99-107 | fields 0 to 3 become `uniqueId`, `description`, `videoUrl` and `videoTitle`, and further fields are ignored |
| `Album.CardRecords` | Assets/Script/AlbumManager.cs:78-87 | there are never more cards than rows |
| `Album.CardCountBound` | Assets/Script/AlbumManager.cs:78-87 | the card database has at most as many cards as the table has lines after the header |
| `Album.CardRecordsAppend` | Assets/Script/AlbumManager.cs:80-87 | cards keep the order of their rows: the cards of two consecutive blocks of rows are the two blocks' cards concatenated |
| `Album.CardRecordsMembers` | Assets/Script/AlbumManager.cs:80-87 | a card is in the database exactly when some row parses to it |
| `Album.HeaderSkipped` | Assets/Script/AlbumManager.cs:80-96 | both loaders ignore the first line, whatever it holds, and a table without a line break gives no card and no description |
| `Album.Descriptions` | Assets/Script/AlbumManager.cs:101-107 | every key of the description database is the `uniqueId` of the entry stored under it |
| `Album.DescriptionKeys` | Assets/Script/AlbumManager.cs:96-107 | an id is a key exactly when some row with four or more fields has that id |
| `Album.DescriptionLastWins` | Assets/Script/AlbumManager.cs:101 | the entry stored under an id is the one parsed from the last row with that id |
| `Album.CardView` | Assets/Script/AlbumManager.cs:126-137 | a card is unlocked (no overlay, no lock text, detail handler for its own id) exactly when its id is among the correct cards, else locked with the locked-message handler; exactly one branch applies |
| `Album.FirstIndex` | Assets/Script/AlbumManager.cs:147 | the position of the first card with the id, or the length when there is none |
| `Album.FirstWithId` | Assets/Script/AlbumManager.cs:147 | `First` finds a card exactly when one has the id, and then it is the first such card |
| `Album.AlbumManager.constructor` | Assets/Script/AlbumManager.cs:44-47 | the databases and user data are null until `Start`, modelled as empty; the album starts empty and both panels are modelled as hidden |
| `Album.AlbumManager.Start` | Assets/Script/AlbumManager.cs:49-57 | after start, user data, both databases and the album are what the loaders and the lock rule give; every unlocked card refers to a loaded card; both panels are hidden; the detail contents are untouched |
| `Album.AlbumManager.LoadUserData` | Assets/Script/AlbumManager.cs:60-72 | user data becomes the saved document if there is one, else the defaults; nothing else changes |
| `Album.AlbumManager.LoadCardData` | Assets/Script/AlbumManager.cs:75-88 | the row loop leaves exactly `CardDatabaseOf(text)` in the card database; nothing else changes |
| `Album.AlbumManager.LoadDescriptionData` | Assets/Script/AlbumManager.cs:91-110 | the row loop leaves exactly `DescriptionDatabaseOf(text)` in the description database; nothing else changes |
| `Album.AlbumManager.PopulateAlbum` | Assets/Script/AlbumManager.cs:113-139 | one album card is appended per card record, in order, each locked or unlocked by the lock rule; every unlocked card's handler names a card in the database; nothing but the album changes |
| `Album.AlbumManager.ShowDetail` | Assets/Script/AlbumManager.cs:142-153 | with no description for the id nothing changes; otherwise the panel opens and shows the first matching card's sprite, the description, the video URL and a single warning listener with the video title; the lookup throws only when no card has the id, and then only the panel has been activated; nothing outside the detail panel changes |
| `Album.AlbumManager.ClickAlbumCard` | Assets/Script/AlbumManager.cs:130-136 | clicking a locked card, or an unlocked card without a description, changes nothing; clicking an unlocked card with a description opens its detail with the first matching card's sprite, the description, the video URL and a single warning listener; no bound handler ever throws |
| `Game.Tick` | Assets/Script/GameManager.cs:61-73 | a frame while stopped changes nothing; while counting it takes off exactly the elapsed time and fires time-up exactly when the time left is zero or less, which is exactly when it stops |
| `Game.Run` | Assets/Script/GameManager.cs:61-73 | over any frames time-up fires at most once, exactly when a counting timer ends stopped; a stopped timer stays unchanged |
| `Game.RunAppend` | Assets/Script/GameManager.cs:61-73 | running two blocks of frames is running the first and then the second from where it ended |
| `Game.TimeUpIsFinal` | Assets/Script/GameManager.cs:67-70 | after time-up, later frames change nothing and fire nothing more |
| `Game.RunFromStart` | Assets/Script/GameManager.cs:55-70 | from a started timer, time-up fires exactly when at least one frame ran and the frames reach the limit; until then the timer counts, with exactly the elapsed time taken off |
| `Game.RandomRange` | Assets/Script/GameManager.cs:50 | for `min <= max`, the chosen index lies in `[min, max)`, and is `min` when the range is empty |
| `Game.RandomRangeReachesAll` | Assets/Script/GameManager.cs:50 | every index of the range can be chosen |
| `Game.GameManager.constructor` | Assets/Script/GameManager.cs:15-18 | the time limit is 10 seconds, the timer is stopped and the correct index is 0 |
| `Game.GameManager.StartGame` | Assets/Script/GameManager.cs:26-33 | a round starts with both panels hidden, timer text shown, hand and problem set, and the timer at the full limit |
| `Game.GameManager.SetHandCards` | Assets/Script/GameManager.cs:36-46 | slot `i` gets its sprite and exactly one listener, which reports `i` |
| `Game.GameManager.SetProblemCard` | Assets/Script/GameManager.cs:49-52 | the correct index is in range and the problem card shows that slot's sprite |
| `Game.GameManager.StartTimer` | Assets/Script/GameManager.cs:55-58 | the time left is the limit and the timer runs |
| `Game.GameManager.Update` | Assets/Script/GameManager.cs:61-73 | one frame moves the timer as `Tick` does; on time-up it hides the timer text and logs one incorrect judgment |
| `Game.GameManager.OnTimeUp` | Assets/Script/GameManager.cs:76-79 | a timeout hides the timer text and is judged incorrect |
| `Game.GameManager.RunFrames` | Assets/Script/GameManager.cs:61-73 | a sequence of frames moves the timer as `Run` does and logs at most one incorrect judgment, exactly when time ran out |

## Left out

- Reading the save file and the JSON decoding (`File.Exists`, `File.ReadAllText`, `JsonConvert`) are not modelled: the saved document is a parameter. A document whose `correctCards` is missing (null) is not modelled either.
- Loading resources (`Resources.Load`) is not modelled: the tables are text parameters, and sprites are named by their resource path. A missing table resource is not modelled.
- The Unity objects are not modelled: `Instantiate`, `transform.Find`, `GetComponent`, `SetActive` and listener lists are not modelled as objects. They appear as plain fields: an album card's overlay and lock-text flags with its single handler, the panels' visibility flags, and a slot's listener list.
- `ShowLockedMessage` is only a `Debug.Log` call, so it is the handler tag `ShowLockedMessage` and changes no state.
- The `ShowWarning` and `OpenVideo` steps (the warning text and opening the URL) are not modelled. The video button's listener is recorded as the title it would show.
- `Game.GameManager.SetProblemCard`: requires at least one hand slot. With none, `handCards[correctIndex]` throws in the source.
- `Game.GameManager.StartGame`: requires at least one hand slot, for the same reason.
- Floating-point time is modelled as whole milliseconds, so rounding below one millisecond is not modelled.
- The timer text `Mathf.Ceil` display string is not modelled; only the text's visibility is.
- `GetRandomSprtite`, `ShowResult` and `OnCardClicked` are not defined in the scripts. Their effects are the sprite parameter, the `results` log and the listener's reported index.
- `Game.GameManager.RunFrames` is the engine's frame loop calling `Update`. It is not in the scripts; it exists so that `Run`'s properties carry over to the object.
- `PopupManager.cs` and `SceneLoader.cs` only toggle a panel, load a scene or quit the app, so they are not modelled.
- Scoring, combo bonus, hand de-duplication, variant crops, pausing and session round counting do not appear in these scripts, so they are not modelled.
