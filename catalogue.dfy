// The four board themes of src/models/Board.ts (`initializeSquares`): the
// squares of each theme in the order the constructor pushes them, before the
// list is sorted by id.

module Catalogue {
  import opened Common
  import opened Squares

  /** `BoardName`: the four themes the constructor recognises. */
  datatype BoardName = Uk | Us | World | Bry

  /** The string a theme goes by. */
  function NameOf(board: BoardName): string {
    match board
    case Uk => "uk"
    case Us => "us"
    case World => "world"
    case Bry => "bry"
  }

  /** The theme switch of `initializeSquares`: any other string is refused. */
  function ParseBoardName(name: string): (r: Result<BoardName>)
    ensures r.Ok? <==> name in {"uk", "us", "world", "bry"}
    ensures r.Ok? ==> NameOf(r.value) == name
    ensures r.Err? ==> r.message == "Board name not recognized"
  {
    match name
    case "uk" => Ok(Uk)
    case "us" => Ok(Us)
    case "world" => Ok(World)
    case "bry" => Ok(Bry)
    case _ => Err("Board name not recognized")
  }

  /** Every theme is recognised by its own name, and by no other. */
  lemma ParseNameOf(board: BoardName, name: string)
    ensures ParseBoardName(NameOf(board)) == Ok(board)
    ensures ParseBoardName(name) == Ok(board) <==> name == NameOf(board)
  {
  }

  /** The squares of a theme, in the order the constructor pushes them. */
  function Layout(board: BoardName): seq<Square> {
    match board
    case Uk => UkSquares()
    case Us => UsSquares()
    case World => WorldSquares()
    case Bry => BrySquares()
  }

  /** The "uk" board, in the order its squares are pushed. */
  function UkSquares(): seq<Square> {
    [
      CornerSquare(0, "Go", None),
      CornerSquare(10, "Jail", None),
      CornerSquare(20, "Free Parking", None),
      CornerSquare(30, "Go To Jail", Some("jail")),
      PropertySquare(1, "Old Kent Road", 60, [2, 10, 30, 90, 160, 250], 50, "brown"),
      PropertySquare(3, "Whitechapel Road", 60, [4, 20, 60, 180, 320, 450], 50, "brown"),
      CardSquare(2, "Community Chest", "community"),
      CardSquare(17, "Community Chest", "community"),
      CardSquare(33, "Community Chest", "community"),
      PropertySquare(6, "The Angel Islington", 100, [6, 30, 90, 270, 400, 550], 50, "light-blue"),
      PropertySquare(8, "Euston Road", 100, [6, 30, 90, 270, 400, 550], 50, "light-blue"),
      PropertySquare(9, "Pentonville Road", 120, [8, 40, 100, 300, 450, 600], 50, "light-blue"),
      CardSquare(7, "Chance", "chance"),
      CardSquare(22, "Chance", "chance"),
      CardSquare(36, "Chance", "chance"),
      PropertySquare(11, "Pall Mall", 140, [10, 50, 150, 450, 625, 750], 100, "pink"),
      PropertySquare(13, "Whitehall", 140, [10, 50, 150, 450, 625, 750], 100, "pink"),
      PropertySquare(14, "Northumberland Avenue", 160, [12, 60, 180, 500, 700, 900], 100, "pink"),
      PropertySquare(16, "Bow Street", 180, [14, 70, 200, 550, 750, 950], 100, "orange"),
      PropertySquare(18, "Marlborough Street", 180, [14, 70, 200, 550, 750, 950], 100, "orange"),
      PropertySquare(19, "Vine Street", 200, [16, 80, 220, 600, 800, 1000], 100, "orange"),
      PropertySquare(21, "Strand", 220, [18, 90, 250, 700, 875, 1050], 150, "red"),
      PropertySquare(23, "Fleet Street", 220, [18, 90, 250, 700, 875, 1050], 150, "red"),
      PropertySquare(24, "Trafalgar Square", 240, [20, 100, 300, 750, 925, 1100], 150, "red"),
      PropertySquare(26, "Leicester Square", 260, [22, 110, 330, 800, 975, 1150], 150, "yellow"),
      PropertySquare(27, "Coventry Street", 260, [22, 110, 330, 800, 975, 1150], 150, "yellow"),
      PropertySquare(29, "Piccadilly", 280, [24, 120, 360, 850, 1025, 1200], 150, "yellow"),
      PropertySquare(31, "Regent Street", 300, [26, 130, 390, 900, 1100, 1275], 200, "green"),
      PropertySquare(32, "Oxford Street", 300, [26, 130, 390, 900, 1100, 1275], 200, "green"),
      PropertySquare(34, "Bond Street", 320, [28, 150, 450, 1000, 1200, 1400], 200, "green"),
      PropertySquare(37, "Park Lane", 350, [35, 175, 500, 1100, 1300, 1500], 200, "dark-blue"),
      PropertySquare(39, "Mayfair", 400, [50, 200, 600, 1400, 1700, 2000], 200, "dark-blue"),
      StationSquare(5, "King's Cross Station", 200, [25, 50, 100, 200]),
      StationSquare(15, "Marylebone Station", 200, [25, 50, 100, 200]),
      StationSquare(25, "Fenchurch St. Station", 200, [25, 50, 100, 200]),
      StationSquare(35, "Liverpool St. Station", 200, [25, 50, 100, 200]),
      UtilitySquare(12, "Electric Company", 150, [4, 10]),
      UtilitySquare(28, "Water Works", 150, [4, 10]),
      TaxSquare(4, "Income Tax", 200),
      TaxSquare(38, "Super Tax", 100)
    ]
  }

  /** The "us" board, in the order its squares are pushed. */
  function UsSquares(): seq<Square> {
    [
      CornerSquare(0, "Go", None),
      CornerSquare(10, "Jail", None),
      CornerSquare(20, "Free Parking", None),
      CornerSquare(30, "Go To Jail", Some("jail")),
      PropertySquare(1, "Mediterranean Avenue", 60, [2, 10, 30, 90, 160, 250], 50, "brown"),
      PropertySquare(3, "Baltic Avenue", 60, [4, 20, 60, 180, 320, 450], 50, "brown"),
      CardSquare(2, "Community Chest", "community"),
      CardSquare(17, "Community Chest", "community"),
      CardSquare(33, "Community Chest", "community"),
      PropertySquare(6, "Oriental Avenue", 100, [6, 30, 90, 270, 400, 550], 50, "light-blue"),
      PropertySquare(8, "Vermont Avenue", 100, [6, 30, 90, 270, 400, 550], 50, "light-blue"),
      PropertySquare(9, "Connecticut Avenue", 120, [8, 40, 100, 300, 450, 600], 50, "light-blue"),
      CardSquare(7, "Chance", "chance"),
      CardSquare(22, "Chance", "chance"),
      CardSquare(36, "Chance", "chance"),
      PropertySquare(11, "St. Charles Place", 140, [10, 50, 150, 450, 625, 750], 100, "pink"),
      PropertySquare(13, "States Avenue", 140, [10, 50, 150, 450, 625, 750], 100, "pink"),
      PropertySquare(14, "Virginia Avenue", 160, [12, 60, 180, 500, 700, 900], 100, "pink"),
      PropertySquare(16, "St. James Place", 180, [14, 70, 200, 550, 750, 950], 100, "orange"),
      PropertySquare(18, "Tennessee Avenue", 180, [14, 70, 200, 550, 750, 950], 100, "orange"),
      PropertySquare(19, "New York Avenue", 200, [16, 80, 220, 600, 800, 1000], 100, "orange"),
      PropertySquare(21, "Kentucky Avenue", 220, [18, 90, 250, 700, 875, 1050], 150, "red"),
      PropertySquare(23, "Indiana Avenue", 220, [18, 90, 250, 700, 875, 1050], 150, "red"),
      PropertySquare(24, "Illinois Avenue", 240, [20, 100, 300, 750, 925, 1100], 150, "red"),
      PropertySquare(26, "Atlantic Avenue", 260, [22, 110, 330, 800, 975, 1150], 150, "yellow"),
      PropertySquare(27, "Ventnor Avenue", 260, [22, 110, 330, 800, 975, 1150], 150, "yellow"),
      PropertySquare(29, "Marvin Gardens", 280, [24, 120, 360, 850, 1025, 1200], 150, "yellow"),
      PropertySquare(31, "Pacific Avenue", 300, [26, 130, 390, 900, 1100, 1275], 200, "green"),
      PropertySquare(32, "North Carolina Avenue", 300, [26, 130, 390, 900, 1100, 1275], 200, "green"),
      PropertySquare(34, "Pennsylvania Avenue", 320, [28, 150, 450, 1000, 1200, 1400], 200, "green"),
      PropertySquare(37, "Park Place", 350, [35, 175, 500, 1100, 1300, 1500], 200, "dark-blue"),
      PropertySquare(39, "Boardwalk", 400, [50, 200, 600, 1400, 1700, 2000], 200, "dark-blue"),
      StationSquare(5, "Reading Railroad", 200, [25, 50, 100, 200]),
      StationSquare(15, "Pennsylvania Railroad", 200, [25, 50, 100, 200]),
      StationSquare(25, "B&O Railroad", 200, [25, 50, 100, 200]),
      StationSquare(35, "Short Line", 200, [25, 50, 100, 200]),
      UtilitySquare(12, "Electric Company", 150, [4, 10]),
      UtilitySquare(28, "Water Works", 150, [4, 10]),
      TaxSquare(4, "Income Tax", 200),
      TaxSquare(38, "Luxury Tax", 100)
    ]
  }

  /** The "world" board, in the order its squares are pushed. */
  function WorldSquares(): seq<Square> {
    [
      CornerSquare(0, "Go", None),
      CornerSquare(10, "Jail", None),
      CornerSquare(20, "Free Parking", None),
      CornerSquare(30, "Go To Jail", Some("jail")),
      PropertySquare(1, "Tokyo", 60, [2, 10, 30, 90, 160, 250], 50, "brown"),
      PropertySquare(3, "New York", 60, [4, 20, 60, 180, 320, 450], 50, "brown"),
      CardSquare(2, "Community Chest", "community"),
      CardSquare(17, "Community Chest", "community"),
      CardSquare(33, "Community Chest", "community"),
      PropertySquare(6, "London", 100, [6, 30, 90, 270, 400, 550], 50, "light-blue"),
      PropertySquare(8, "Paris", 100, [6, 30, 90, 270, 400, 550], 50, "light-blue"),
      PropertySquare(9, "Berlin", 120, [8, 40, 100, 300, 450, 600], 50, "light-blue"),
      CardSquare(7, "Chance", "chance"),
      CardSquare(22, "Chance", "chance"),
      CardSquare(36, "Chance", "chance"),
      PropertySquare(11, "Sydney", 140, [10, 50, 150, 450, 625, 750], 100, "pink"),
      PropertySquare(13, "Rio de Janeiro", 140, [10, 50, 150, 450, 625, 750], 100, "pink"),
      PropertySquare(14, "Cape Town", 160, [12, 60, 180, 500, 700, 900], 100, "pink"),
      PropertySquare(16, "Moscow", 180, [14, 70, 200, 550, 750, 950], 100, "orange"),
      PropertySquare(18, "Beijing", 180, [14, 70, 200, 550, 750, 950], 100, "orange"),
      PropertySquare(19, "Dubai", 200, [16, 80, 220, 600, 800, 1000], 100, "orange"),
      PropertySquare(21, "Los Angeles", 220, [18, 90, 250, 700, 875, 1050], 150, "red"),
      PropertySquare(23, "Toronto", 220, [18, 90, 250, 700, 875, 1050], 150, "red"),
      PropertySquare(24, "Mexico City", 240, [20, 100, 300, 750, 925, 1100], 150, "red"),
      PropertySquare(26, "Bangkok", 260, [22, 110, 330, 800, 975, 1150], 150, "yellow"),
      PropertySquare(27, "Singapore", 260, [22, 110, 330, 800, 975, 1150], 150, "yellow"),
      PropertySquare(29, "Hong Kong", 280, [24, 120, 360, 850, 1025, 1200], 150, "yellow"),
      PropertySquare(31, "Berlin", 300, [26, 130, 390, 900, 1100, 1275], 200, "green"),
      PropertySquare(32, "Madrid", 300, [26, 130, 390, 900, 1100, 1275], 200, "green"),
      PropertySquare(34, "Rome", 320, [28, 150, 450, 1000, 1200, 1400], 200, "green"),
      PropertySquare(37, "Istanbul", 350, [35, 175, 500, 1100, 1300, 1500], 200, "dark-blue"),
      PropertySquare(39, "Cairo", 400, [50, 200, 600, 1400, 1700, 2000], 200, "dark-blue"),
      StationSquare(5, "Tokyo Station", 200, [25, 50, 100, 200]),
      StationSquare(15, "London Station", 200, [25, 50, 100, 200]),
      StationSquare(25, "New York Station", 200, [25, 50, 100, 200]),
      StationSquare(35, "Paris Station", 200, [25, 50, 100, 200]),
      UtilitySquare(12, "Electric Company", 150, [4, 10]),
      UtilitySquare(28, "Water Works", 150, [4, 10]),
      TaxSquare(4, "Income Tax", 200),
      TaxSquare(38, "Luxury Tax", 100)
    ]
  }

  /** The "bry" board, in the order its squares are pushed. */
  function BrySquares(): seq<Square> {
    [
      CornerSquare(0, "Go", None),
      CornerSquare(10, "Detention", None),
      CornerSquare(20, "Free Cafe", None),
      CornerSquare(30, "Go To Detention", Some("jail")),
      PropertySquare(1, "Room 6", 60, [2, 10, 30, 90, 160, 250], 50, "brown"),
      PropertySquare(3, "Room 8", 60, [4, 20, 60, 180, 320, 450], 50, "brown"),
      CardSquare(2, "Community Chest", "community"),
      CardSquare(17, "Community Chest", "community"),
      CardSquare(33, "Community Chest", "community"),
      PropertySquare(6, "The Angel Islington", 100, [6, 30, 90, 270, 400, 550], 50, "light-blue"),
      PropertySquare(8, "Euston Road", 100, [6, 30, 90, 270, 400, 550], 50, "light-blue"),
      PropertySquare(9, "Pentonville Road", 120, [8, 40, 100, 300, 450, 600], 50, "light-blue"),
      CardSquare(7, "Chance", "chance"),
      CardSquare(22, "Chance", "chance"),
      CardSquare(36, "Chance", "chance"),
      PropertySquare(11, "Pall Mall", 140, [10, 50, 150, 450, 625, 750], 100, "pink"),
      PropertySquare(13, "Whitehall", 140, [10, 50, 150, 450, 625, 750], 100, "pink"),
      PropertySquare(14, "Northumberland Avenue", 160, [12, 60, 180, 500, 700, 900], 100, "pink"),
      PropertySquare(16, "Bow Street", 180, [14, 70, 200, 550, 750, 950], 100, "orange"),
      PropertySquare(18, "Marlborough Street", 180, [14, 70, 200, 550, 750, 950], 100, "orange"),
      PropertySquare(19, "Vine Street", 200, [16, 80, 220, 600, 800, 1000], 100, "orange"),
      PropertySquare(21, "Strand", 220, [18, 90, 250, 700, 875, 1050], 150, "red"),
      PropertySquare(23, "Fleet Street", 220, [18, 90, 250, 700, 875, 1050], 150, "red"),
      PropertySquare(24, "Trafalgar Square", 240, [20, 100, 300, 750, 925, 1100], 150, "red"),
      PropertySquare(26, "Leicester Square", 260, [22, 110, 330, 800, 975, 1150], 150, "yellow"),
      PropertySquare(27, "Coventry Street", 260, [22, 110, 330, 800, 975, 1150], 150, "yellow"),
      PropertySquare(29, "Piccadilly", 280, [24, 120, 360, 850, 1025, 1200], 150, "yellow"),
      PropertySquare(31, "Regent Street", 300, [26, 130, 390, 900, 1100, 1275], 200, "green"),
      PropertySquare(32, "Oxford Street", 300, [26, 130, 390, 900, 1100, 1275], 200, "green"),
      PropertySquare(34, "Bond Street", 320, [28, 150, 450, 1000, 1200, 1400], 200, "green"),
      PropertySquare(37, "Cowley", 350, [35, 175, 500, 1100, 1300, 1500], 200, "dark-blue"),
      PropertySquare(39, "Grosvenor", 400, [50, 200, 600, 1400, 1700, 2000], 200, "dark-blue"),
      StationSquare(5, "King's Cross Station", 200, [25, 50, 100, 200]),
      StationSquare(15, "Marylebone Station", 200, [25, 50, 100, 200]),
      StationSquare(25, "Fenchurch St. Station", 200, [25, 50, 100, 200]),
      StationSquare(35, "Liverpool St. Station", 200, [25, 50, 100, 200]),
      UtilitySquare(12, "Electric Company", 150, [4, 10]),
      UtilitySquare(28, "Water Works", 150, [4, 10]),
      TaxSquare(4, "Income Tax", 200),
      TaxSquare(38, "Super Tax", 100)
    ]
  }
}
