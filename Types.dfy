/** The records and the two closed label sets of the comic wizard (types.ts). */
module Types {

  datatype Option<+T> = None | Some(value: T)

  datatype Result<+T, +E> = Success(value: T) | Failure(error: E)

  /** Why a generation, a parse or a composition did not produce a value. */
  datatype Error =
    | CallFailed          // the remote model call itself was rejected
    | Unparsable          // JSON.parse threw, or a required array was missing
    | NoImageGenerated    // no response part carried inline image data
    | NoImages            // the compositor got an empty image list
    | ImageLoadFailed     // one of the images could not be decoded
    | MissingPanel        // fewer panel records than images reached the compositor

  /** The eight visual styles. */
  datatype StyleType =
    | Cheerful | Webtoon | Illustration | Sketch | Cyberpunk | Fantasy | Ghibli | Picasso

  /** The ten narrative genres. */
  datatype GenreType =
    | DailyComedy | FantasyAdventure | Romance | Thriller | SF | History | Action
    | FantasyRomance | Mystery | Healing

  /** The string value each style member carries; it is what reaches the prompts. */
  function StyleLabel(s: StyleType): string
  {
    match s
    case Cheerful => "명랑만화"
    case Webtoon => "웹툰"
    case Illustration => "일러스트"
    case Sketch => "스케치"
    case Cyberpunk => "사이버펑크"
    case Fantasy => "판타지"
    case Ghibli => "지브리스타일"
    case Picasso => "피카소스타일"
  }

  function GenreLabel(g: GenreType): string
  {
    match g
    case DailyComedy => "일상 공감 및 개그 만화"
    case FantasyAdventure => "판타지 모험"
    case Romance => "로맨스"
    case Thriller => "스릴러"
    case SF => "SF"
    case History => "역사"
    case Action => "액션 어드벤처"
    case FantasyRomance => "판타지 로맨스"
    case Mystery => "미스터리/범죄"
    case Healing => "힐링/일상물"
  }

  /** The styles in declaration order, as the selection grid lists them. */
  function AllStyles(): (r: seq<StyleType>)
    ensures |r| == 8
    ensures forall i, j :: 0 <= i < j < |r| ==> StyleLabel(r[i]) != StyleLabel(r[j])
  {
    [Cheerful, Webtoon, Illustration, Sketch, Cyberpunk, Fantasy, Ghibli, Picasso]
  }

  /** The genres in declaration order, as the selection grid lists them. */
  function AllGenres(): (r: seq<GenreType>)
    ensures |r| == 10
    ensures forall i, j :: 0 <= i < j < |r| ==> GenreLabel(r[i]) != GenreLabel(r[j])
  {
    [DailyComedy, FantasyAdventure, Romance, Thriller, SF, History, Action,
     FantasyRomance, Mystery, Healing]
  }

  /** The style set is closed: every style value is one of the eight listed. */
  lemma StyleListed(s: StyleType)
    ensures s in AllStyles()
  {
    match s
    case Cheerful => assert AllStyles()[0] == s;
    case Webtoon => assert AllStyles()[1] == s;
    case Illustration => assert AllStyles()[2] == s;
    case Sketch => assert AllStyles()[3] == s;
    case Cyberpunk => assert AllStyles()[4] == s;
    case Fantasy => assert AllStyles()[5] == s;
    case Ghibli => assert AllStyles()[6] == s;
    case Picasso => assert AllStyles()[7] == s;
  }

  /** The genre set is closed: every genre value is one of the ten listed. */
  lemma GenreListed(g: GenreType)
    ensures g in AllGenres()
  {
    match g
    case DailyComedy => assert AllGenres()[0] == g;
    case FantasyAdventure => assert AllGenres()[1] == g;
    case Romance => assert AllGenres()[2] == g;
    case Thriller => assert AllGenres()[3] == g;
    case SF => assert AllGenres()[4] == g;
    case History => assert AllGenres()[5] == g;
    case Action => assert AllGenres()[6] == g;
    case FantasyRomance => assert AllGenres()[7] == g;
    case Mystery => assert AllGenres()[8] == g;
    case Healing => assert AllGenres()[9] == g;
  }

  datatype Character = Character(id: string, name: string, description: string,
                                 imageUrl: Option<string>)

  datatype Dialogue = Dialogue(speaker: string, text: string)

  datatype Panel = Panel(id: int, description: string, dialogues: seq<Dialogue>,
                         imageUrl: Option<string>)

  /** The wizard's single state record; `step` is any number at the type level. */
  datatype ComicState = ComicState(
    step: int,
    style: StyleType,
    genre: GenreType,
    storyPrompt: string,
    characters: seq<Character>,
    panels: seq<Panel>,
    isGenerating: bool)

  /** JavaScript truthiness of an optional URL: absent and "" both count as no image. */
  predicate HasImage(url: Option<string>)
  {
    url.Some? && url.value != ""
  }
}
