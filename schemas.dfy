/**
 * The records exchanged between the browser client and the backend. The
 * TypeScript interfaces and the pydantic models have the same fields.
 */
module Schemas {

  datatype JobListing = JobListing(
    id: string,
    title: string,
    skills: seq<string>,
    experience: string,
    description: string,
    company: string)

  datatype GeneratedEmailData = GeneratedEmailData(
    id: string,
    subject: string,
    content: string,
    jobListing: JobListing,
    portfolioLinks: seq<string>,
    timestamp: string)

  datatype UserPreferences = UserPreferences(tone: string, language: string, emailLength: string)

  /** The pydantic defaults of a new user's preferences. */
  const DefaultPreferences: UserPreferences := UserPreferences("professional", "english", "medium")

  datatype User = User(id: string, email: string, name: string, preferences: UserPreferences)

  datatype AuthResponse = AuthResponse(token: string, user: User)
}
