/** The records the screens receive from the backend (as decoded JSON). */
module Entities {
  import opened Base

  datatype User = User(id: int, username: string, email: string)

  /** `profile`: the logged-in user, with an optional picture path and description. */
  datatype Profile = Profile(user: User, picture: Option<string>, description: Option<string>)

  /** A video of the feed (`/videos/`) or of the owner's list (`/profile/videos/`). */
  datatype Video = Video(
    id: int,
    title: string,
    description: string,
    category: string,
    uploader: int,
    uploaderUsername: string,
    views: int,
    videoFile: string,
    uploadDate: string)

  /** A comment as cached by a screen: `user_username` identifies its author. */
  datatype Comment = Comment(
    id: int,
    content: string,
    userUsername: string,
    userProfilePicture: Option<string>,
    createdAt: string)

  /** `CATEGORY_CHOICES`, the nine category values offered by the pickers. */
  const Categories: seq<string> := [
    "Programming & Software Development",
    "Networking & Cybersecurity",
    "Artificial Intelligence & Machine Learning",
    "Data Science & Databases",
    "Cloud Computing & DevOps",
    "IT Fundamentals & Certifications",
    "UI/UX Design & Tools",
    "Game Development & AR/VR",
    "Career & Soft Skills for IT"
  ]
}
