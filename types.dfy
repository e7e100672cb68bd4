/** The records of the learning platform's tables, as the client reads them. */
module Types {
  import opened Wrappers

  /** A client-side route. */
  type Path = string

  /** The two roles a profile row may carry. */
  datatype Role = Student | Admin

  /** A row of the `users` table: the profile ("app user") of a signed-in identity. */
  datatype User = User(
    id: string,
    email: string,
    fullName: Option<string>,
    role: Role,
    avatarUrl: Option<string>,
    createdAt: string,
    updatedAt: string)

  /** A row of the `courses` table. */
  datatype Course = Course(
    id: string,
    title: string,
    description: Option<string>,
    coverImage: Option<string>,
    isPublished: bool,
    createdBy: string,
    createdAt: string,
    updatedAt: string)

  /** A row of the `enrollments` table, linking a user to a course. */
  datatype Enrollment = Enrollment(
    id: string,
    userId: string,
    courseId: string,
    enrolledAt: string,
    completedAt: Option<string>)
}
