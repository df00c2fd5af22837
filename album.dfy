/**
 * The album scene: two CSV loaders (unit cards and their descriptions), the
 * saved user data, the lock rule that decides each card's click handler, and
 * the detail panel shown for an unlocked card.
 *
 * The parsing is stated first as functions on the text (what the loaders must
 * produce); the class `AlbumManager` then carries the loops and the fields the
 * scene updates, each method proved against those functions.
 */
module Album {
  import opened Wrappers
  import opened Text

  /** The saved document: best score and the ids of every card answered correctly. */
  datatype UserData = UserData(highScore: int, correctCards: seq<string>)

  /** One row of the unit table. */
  datatype CardData = CardData(uniqueId: string, spritePath: string)

  /** One row of the description table. */
  datatype DescriptionData = DescriptionData(uniqueId: string, description: string, videoUrl: string, videoTitle: string)

  /** What a first run starts from when there is no save file. */
  const DefaultUserData := UserData(0, [])

  /** The user data the scene works with, given the saved document if there is one. */
  function UserDataFrom(saved: Option<UserData>): (u: UserData)
    ensures saved.None? ==> u.highScore == 0 && |u.correctCards| == 0
    ensures saved.Some? ==> u == saved.value
  {
    match saved
    case Some(data) => data
    case None => DefaultUserData
  }

  // ---------------------------------------------------------------------------
  // Line and field parsing
  // ---------------------------------------------------------------------------

  /** The lines of a table after its header line. */
  function Rows(text: string): seq<string>
  {
    Split(text, '\n')[1..]
  }

  /** A unit row yields a card exactly when it has at least two fields (one comma). */
  function ParseCard(line: string): (r: Option<CardData>)
    ensures r.Some? <==> Count(line, ',') >= 1
  {
    var values := Split(line, ',');
    if |values| >= 2 then Some(CardData(values[0], values[1])) else None
  }

  /** A description row yields an entry exactly when it has at least four fields (three commas). */
  function ParseDescription(line: string): (r: Option<DescriptionData>)
    ensures r.Some? <==> Count(line, ',') >= 3
  {
    var values := Split(line, ',');
    if |values| >= 4 then Some(DescriptionData(values[0], values[1], values[2], values[3])) else None
  }

  /** The cards of some rows, in row order; rows with too few fields give nothing. */
  function CardRecords(lines: seq<string>): (cards: seq<CardData>)
    ensures |cards| <= |lines|
  {
    if lines == [] then []
    else
      var last := lines[|lines| - 1];
      CardRecords(lines[..|lines| - 1]) + (if ParseCard(last).Some? then [ParseCard(last).value] else [])
  }

  /** The description table built from some rows, each row assigning its id in turn. */
  function Descriptions(lines: seq<string>): (db: map<string, DescriptionData>)
    ensures forall id :: id in db ==> db[id].uniqueId == id
  {
    if lines == [] then map[]
    else
      var db := Descriptions(lines[..|lines| - 1]);
      var entry := ParseDescription(lines[|lines| - 1]);
      if entry.Some? then db[entry.value.uniqueId := entry.value] else db
  }

  /** What `LoadCardData` leaves in the card database for a unit table. */
  function CardDatabaseOf(text: string): seq<CardData>
  {
    CardRecords(Rows(text))
  }

  /** What `LoadDescriptionData` leaves in the description database for a description table. */
  function DescriptionDatabaseOf(text: string): map<string, DescriptionData>
  {
    Descriptions(Rows(text))
  }

  /** Row `line` is a description row for `id`. */
  predicate Describes(line: string, id: string)
  {
    ParseDescription(line).Some? && ParseDescription(line).value.uniqueId == id
  }

  // ---------------------------------------------------------------------------
  // What the parsing promises
  // ---------------------------------------------------------------------------

  /** The table row with the given fields, separated by commas. */
  function CsvRow(fields: seq<string>): string
  {
    Join(fields, ',')
  }

  /** Fields map to card members by position: id first, sprite path second, any further fields ignored. */
  lemma CardRowFields(fields: seq<string>)
    requires |fields| >= 2
    requires forall i :: 0 <= i < |fields| ==> ',' !in fields[i]
    ensures ParseCard(CsvRow(fields)).Some?
    ensures ParseCard(CsvRow(fields)).value == CardData(fields[0], fields[1])
  {
    SplitJoin(fields, ',');
  }

  /** Fields map to description members by position: id, description, video URL, video title; any further fields ignored. */
  lemma DescriptionRowFields(fields: seq<string>)
    requires |fields| >= 4
    requires forall i :: 0 <= i < |fields| ==> ',' !in fields[i]
    ensures ParseDescription(CsvRow(fields)).Some?
    ensures ParseDescription(CsvRow(fields)).value == DescriptionData(fields[0], fields[1], fields[2], fields[3])
  {
    SplitJoin(fields, ',');
  }

  /** The header line never matters, and a table with no line break has no rows at all. */
  lemma {:induction false} HeaderSkipped(header: string, body: string)
    requires '\n' !in header
    ensures CardDatabaseOf(header + ['\n'] + body) == CardRecords(Split(body, '\n'))
    ensures DescriptionDatabaseOf(header + ['\n'] + body) == Descriptions(Split(body, '\n'))
    ensures CardDatabaseOf(header) == []
    ensures DescriptionDatabaseOf(header) == map[]
  {
    SplitAtFirst(header, '\n', body);
    SplitWithoutSeparator(header, '\n');
  }

  /** There are never more cards than rows after the header. */
  lemma CardCountBound(text: string)
    ensures |CardDatabaseOf(text)| <= Count(text, '\n')
  {
  }

  /** Cards keep their rows' order: the cards of consecutive blocks of rows are concatenated. */
  lemma {:induction false} CardRecordsAppend(a: seq<string>, b: seq<string>)
    ensures CardRecords(a + b) == CardRecords(a) + CardRecords(b)
    decreases |b|
  {
    if b == [] {
      assert a + b == a;
    } else {
      var front := b[..|b| - 1];
      CardRecordsAppend(a, front);
      assert (a + b)[..|a + b| - 1] == a + front;
      assert (a + b)[|a + b| - 1] == b[|b| - 1];
    }
  }

  /** A card is produced exactly when some row parses to it. */
  lemma {:induction false} CardRecordsMembers(lines: seq<string>, card: CardData)
    ensures card in CardRecords(lines) <==> exists j :: 0 <= j < |lines| && ParseCard(lines[j]) == Some(card)
  {
    if lines != [] {
      var front := lines[..|lines| - 1];
      CardRecordsMembers(front, card);
      if exists j :: 0 <= j < |lines| && ParseCard(lines[j]) == Some(card) {
        var j :| 0 <= j < |lines| && ParseCard(lines[j]) == Some(card);
        if j < |front| {
          assert front[j] == lines[j];
        }
      }
      if card in CardRecords(front) {
        var j :| 0 <= j < |front| && ParseCard(front[j]) == Some(card);
        assert lines[j] == front[j];
      }
    }
  }

  /** An id is a description key exactly when some row describes it. */
  lemma {:induction false} DescriptionKeys(lines: seq<string>, id: string)
    ensures id in Descriptions(lines) <==> exists j :: 0 <= j < |lines| && Describes(lines[j], id)
  {
    if lines != [] {
      var front := lines[..|lines| - 1];
      DescriptionKeys(front, id);
      if exists j :: 0 <= j < |lines| && Describes(lines[j], id) {
        var j :| 0 <= j < |lines| && Describes(lines[j], id);
        if j < |front| {
          assert front[j] == lines[j];
        }
      }
      if id in Descriptions(front) {
        var j :| 0 <= j < |front| && Describes(front[j], id);
        assert lines[j] == front[j];
      }
    }
  }

  /** Last write wins: the entry stored under an id is the one parsed from the last row describing it. */
  lemma {:induction false} DescriptionLastWins(lines: seq<string>, j: nat, id: string)
    requires j < |lines| && Describes(lines[j], id)
    requires forall k :: j < k < |lines| ==> !Describes(lines[k], id)
    ensures id in Descriptions(lines)
    ensures Descriptions(lines)[id] == ParseDescription(lines[j]).value
  {
    var front := lines[..|lines| - 1];
    if j < |front| {
      forall k | j < k < |front| ensures !Describes(front[k], id) {
        assert front[k] == lines[k];
      }
      assert front[j] == lines[j];
      DescriptionLastWins(front, j, id);
    }
  }

  // ---------------------------------------------------------------------------
  // Album cards and the lock rule
  // ---------------------------------------------------------------------------

  /** The click handler bound to an album card's button. */
  datatype Handler = ShowDetailFor(uniqueId: string) | ShowLockedMessage

  /** An instantiated album card: its image, its lock overlay and lock text, its handler. */
  datatype AlbumCard = AlbumCard(spritePath: string, overlayActive: bool, lockTextActive: bool, handler: Handler)

  /** The lock rule: a card is unlocked exactly when its id was answered correctly. */
  function CardView(card: CardData, correctCards: seq<string>): (v: AlbumCard)
    ensures v.spritePath == card.spritePath
    ensures v.handler == ShowDetailFor(card.uniqueId) <==> card.uniqueId in correctCards
    ensures v.handler == ShowLockedMessage <==> card.uniqueId !in correctCards
    ensures v.overlayActive == v.lockTextActive == (card.uniqueId !in correctCards)
  {
    if card.uniqueId in correctCards then AlbumCard(card.spritePath, false, false, ShowDetailFor(card.uniqueId))
    else AlbumCard(card.spritePath, true, true, ShowLockedMessage)
  }

  /** Some card in `cards` has id `id`. */
  ghost predicate HasCard(cards: seq<CardData>, id: string)
  {
    exists j :: 0 <= j < |cards| && cards[j].uniqueId == id
  }

  /** Position of the first card with id `id`, or `|cards|` when there is none. */
  function FirstIndex(cards: seq<CardData>, id: string): (k: nat)
    ensures k <= |cards|
    ensures k < |cards| ==> cards[k].uniqueId == id
    ensures forall i :: 0 <= i < k ==> cards[i].uniqueId != id
  {
    if cards == [] then 0
    else if cards[0].uniqueId == id then 0
    else 1 + FirstIndex(cards[1..], id)
  }

  /** `cards.First(c => c.uniqueId == id)`, with `None` where First throws. */
  function FirstWithId(cards: seq<CardData>, id: string): (r: Option<CardData>)
    ensures r.Some? <==> HasCard(cards, id)
    ensures r.Some? ==> r.value == cards[FirstIndex(cards, id)] && r.value.uniqueId == id
  {
    var k := FirstIndex(cards, id);
    if k < |cards| then Some(cards[k]) else None
  }

  // ---------------------------------------------------------------------------
  // The scene object
  // ---------------------------------------------------------------------------

  class AlbumManager {
    var cardDatabase: seq<CardData>
    var descriptionDatabase: map<string, DescriptionData>
    var userData: UserData
    /** The cards instantiated under the content parent, in creation order. */
    var album: seq<AlbumCard>
    var detailPanelActive: bool
    /** The resource path the detail image was loaded from. */
    var detailSpritePath: string
    var detailText: string
    var currentVideoUrl: string
    /** The video button's listeners, each the title its warning would show. */
    var videoListeners: seq<string>
    var warningPanelActive: bool

    /** Every unlocked album card opens the detail of a card that is in the card database. */
    ghost predicate Valid()
      reads this`album, this`cardDatabase
    {
      forall i :: 0 <= i < |album| && album[i].handler.ShowDetailFor? ==> HasCard(cardDatabase, album[i].handler.uniqueId)
    }

    /** The scene object before `Start`; the databases and user data are modelled as empty, the panels as hidden. */
    constructor ()
      ensures cardDatabase == [] && descriptionDatabase == map[] && album == []
      ensures !detailPanelActive && !warningPanelActive && videoListeners == []
      ensures Valid()
    {
      cardDatabase := [];
      descriptionDatabase := map[];
      userData := DefaultUserData;
      album := [];
      detailPanelActive, detailSpritePath, detailText, currentVideoUrl := false, "", "", "";
      videoListeners := [];
      warningPanelActive := false;
    }

    /** The scene's start: load everything, build the album, hide both panels. */
    method Start(saved: Option<UserData>, unitTable: string, descriptionTable: string)
      modifies this`userData, this`cardDatabase, this`descriptionDatabase, this`album
      modifies this`detailPanelActive, this`warningPanelActive
      ensures userData == UserDataFrom(saved)
      ensures cardDatabase == CardDatabaseOf(unitTable)
      ensures descriptionDatabase == DescriptionDatabaseOf(descriptionTable)
      ensures |album| == |old(album)| + |cardDatabase| && album[..|old(album)|] == old(album)
      ensures forall i :: 0 <= i < |cardDatabase| ==> album[|old(album)| + i] == CardView(cardDatabase[i], userData.correctCards)
      ensures old(album) == [] ==> Valid()
      ensures !detailPanelActive && !warningPanelActive
    {
      LoadUserData(saved);
      LoadCardData(unitTable);
      LoadDescriptionData(descriptionTable);
      if album == [] {
        assert Valid();
      }
      PopulateAlbum();
      detailPanelActive := false;
      warningPanelActive := false;
    }

    /** The saved document if there is one, otherwise the first-run defaults. */
    method LoadUserData(saved: Option<UserData>)
      modifies this`userData
      ensures userData == UserDataFrom(saved)
    {
      match saved {
        case Some(data) => userData := data;
        case None => userData := DefaultUserData;
      }
    }

    /** Rebuilds the card database from the unit table, one row at a time after the header. */
    method LoadCardData(text: string)
      modifies this`cardDatabase
      ensures cardDatabase == CardDatabaseOf(text)
    {
      var lines := Split(text, '\n');
      cardDatabase := [];
      for i := 1 to |lines|
        invariant cardDatabase == CardRecords(lines[1..i])
      {
        assert lines[1..i + 1][..i - 1] == lines[1..i];
        assert lines[1..i + 1][i - 1] == lines[i];
        var values := Split(lines[i], ',');
        if |values| >= 2 {
          cardDatabase := cardDatabase + [CardData(values[0], values[1])];
        }
      }
      assert lines[1..|lines|] == Rows(text);
    }

    /** Rebuilds the description database from the description table; a later row for an id replaces an earlier one. */
    method LoadDescriptionData(text: string)
      modifies this`descriptionDatabase
      ensures descriptionDatabase == DescriptionDatabaseOf(text)
    {
      var lines := Split(text, '\n');
      descriptionDatabase := map[];
      for i := 1 to |lines|
        invariant descriptionDatabase == Descriptions(lines[1..i])
      {
        assert lines[1..i + 1][..i - 1] == lines[1..i];
        assert lines[1..i + 1][i - 1] == lines[i];
        var values := Split(lines[i], ',');
        if |values| >= 4 {
          descriptionDatabase := descriptionDatabase[values[0] := DescriptionData(values[0], values[1], values[2], values[3])];
        }
      }
      assert lines[1..|lines|] == Rows(text);
    }

    /** Instantiates one album card per card record, locked or unlocked by the lock rule. */
    method PopulateAlbum()
      modifies this`album
      ensures |album| == |old(album)| + |cardDatabase| && album[..|old(album)|] == old(album)
      ensures forall i :: 0 <= i < |cardDatabase| ==> album[|old(album)| + i] == CardView(cardDatabase[i], userData.correctCards)
      ensures old(Valid()) ==> Valid()
    {
      ghost var before := album;
      for k := 0 to |cardDatabase|
        invariant |album| == |before| + k && album[..|before|] == before
        invariant forall i :: 0 <= i < k ==> album[|before| + i] == CardView(cardDatabase[i], userData.correctCards)
      {
        var card := cardDatabase[k];
        var slot;
        if card.uniqueId in userData.correctCards {
          slot := AlbumCard(card.spritePath, false, false, ShowDetailFor(card.uniqueId));
        } else {
          slot := AlbumCard(card.spritePath, true, true, ShowLockedMessage);
        }
        album := album + [slot];
      }
      if old(Valid()) {
        forall i | 0 <= i < |album| && album[i].handler.ShowDetailFor?
          ensures HasCard(cardDatabase, album[i].handler.uniqueId)
        {
          if i < |before| {
            assert album[i] == before[i];
          } else {
            var j := i - |before|;
            assert album[|before| + j] == CardView(cardDatabase[j], userData.correctCards);
            assert cardDatabase[j].uniqueId == album[i].handler.uniqueId;
          }
        }
      }
    }

    /**
     * Opens the detail panel for `uniqueId` when it has a description; otherwise
     * nothing changes. `thrown` is set where the card lookup would throw: the panel
     * has then been activated and nothing else has changed.
     */
    method ShowDetail(uniqueId: string) returns (thrown: bool)
      modifies this`detailPanelActive, this`detailSpritePath, this`detailText, this`currentVideoUrl, this`videoListeners
      ensures uniqueId !in descriptionDatabase ==>
        !thrown && detailPanelActive == old(detailPanelActive) && detailText == old(detailText)
        && detailSpritePath == old(detailSpritePath) && currentVideoUrl == old(currentVideoUrl)
        && videoListeners == old(videoListeners)
      ensures uniqueId in descriptionDatabase ==> detailPanelActive && (thrown <==> !HasCard(cardDatabase, uniqueId))
      ensures thrown ==>
        detailText == old(detailText) && detailSpritePath == old(detailSpritePath)
        && currentVideoUrl == old(currentVideoUrl) && videoListeners == old(videoListeners)
      ensures uniqueId in descriptionDatabase && !thrown ==>
        var entry := descriptionDatabase[uniqueId];
        && detailSpritePath == FirstWithId(cardDatabase, uniqueId).value.spritePath
        && detailText == entry.description
        && currentVideoUrl == entry.videoUrl
        && videoListeners == [entry.videoTitle]
    {
      thrown := false;
      if uniqueId in descriptionDatabase {
        detailPanelActive := true;
        var first := FirstWithId(cardDatabase, uniqueId);
        if first.None? {
          thrown := true;
          return;
        }
        detailSpritePath := first.value.spritePath;
        detailText := descriptionDatabase[uniqueId].description;
        currentVideoUrl := descriptionDatabase[uniqueId].videoUrl;
        videoListeners := [];
        videoListeners := videoListeners + [descriptionDatabase[uniqueId].videoTitle];
      }
    }

    /**
     * A click on album card `i` runs the handler bound to it: a locked card only
     * logs a message, an unlocked one runs `ShowDetail` for its id. The bound
     * handlers never throw.
     */
    method ClickAlbumCard(i: nat) returns (thrown: bool)
      requires Valid() && i < |album|
      modifies this`detailPanelActive, this`detailSpritePath, this`detailText, this`currentVideoUrl, this`videoListeners
      ensures !thrown
      ensures album[i].handler == ShowLockedMessage || album[i].handler.uniqueId !in descriptionDatabase ==>
        detailPanelActive == old(detailPanelActive) && detailText == old(detailText)
        && detailSpritePath == old(detailSpritePath) && currentVideoUrl == old(currentVideoUrl)
        && videoListeners == old(videoListeners)
      ensures album[i].handler.ShowDetailFor? && album[i].handler.uniqueId in descriptionDatabase ==>
        var id := album[i].handler.uniqueId;
        var entry := descriptionDatabase[id];
        && detailPanelActive
        && detailSpritePath == FirstWithId(cardDatabase, id).value.spritePath
        && detailText == entry.description
        && currentVideoUrl == entry.videoUrl
        && videoListeners == [entry.videoTitle]
    {
      match album[i].handler {
        case ShowDetailFor(id) =>
          thrown := ShowDetail(id);
        case ShowLockedMessage =>
          thrown := false;
      }
    }
  }
}
