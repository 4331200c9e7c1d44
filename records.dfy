/** The table rows the pages read, with the fields the code uses; a field the
    database may leave out (`?:` or `| null`) is an `Option`. */
module Records {
  import opened Wrappers

  /** The two stations, `'Hermosillo' | 'Obregón'`. */
  datatype City = Hermosillo | Obregon {
    function Name(): (r: string)
      ensures r == "Hermosillo" <==> this == Hermosillo
      ensures r == "Obregón" <==> this == Obregon
    {
      match this
      case Hermosillo => "Hermosillo"
      case Obregon => "Obregón"
    }
  }

  datatype Event = Event(
    id: string, title: string, date: string, time: string, location: string,
    description: string, featured: bool, imageUrl: Option<string>, link: Option<string>,
    city: Option<string>)

  datatype Program = Program(
    id: string, day: string, time: string, title: string, host: string,
    programType: string, icon: string, city: Option<string>)

  datatype Video = Video(id: string, youtubeId: string, title: Option<string>, displayOrder: int)

  datatype GalleryImage = GalleryImage(
    id: string, src: string, alt: Option<string>, title: Option<string>, displayOrder: int)

  datatype Announcement = Announcement(
    id: string, title: Option<string>, description: Option<string>, imageUrl: string,
    linkUrl: Option<string>, displayOrder: int, active: bool)

  datatype Article = Article(
    id: string, title: string, slug: string, authorName: string, imageUrl: Option<string>,
    likesCount: int, commentsCount: Option<int>)

  datatype Profile = Profile(
    id: string, fullName: Option<string>, email: Option<string>, role: string, phone: Option<string>)
}
