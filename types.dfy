/** Row shapes of the tables the site reads (src/lib/types.ts). Each row
    keeps its id and the columns that some filter, order, update or hook
    decision of the site looks at; descriptive columns are not kept. */
module Types {
  import opened Wrappers

  datatype ProgramCategory = ProgramCategory(
    id: string,
    displayOrder: int,
    isActive: bool)

  datatype Program = Program(
    id: string,
    categoryId: string,
    slug: string,
    displayOrder: int,
    isFeatured: bool,
    isPublic: bool)

  datatype Trustee = Trustee(
    id: string,
    displayOrder: int,
    isPublic: bool,
    isActive: bool)

  datatype FinancialReport = FinancialReport(
    id: string,
    fiscalYear: string,
    isPublished: bool)

  datatype Testimonial = Testimonial(
    id: string,
    displayOrder: int,
    isApproved: bool,
    isPublic: bool)

  datatype BlogPost = BlogPost(
    id: string,
    slug: string,
    isPublished: bool,
    publishedDate: Option<string>)

  datatype SiteSetting = SiteSetting(
    id: string,
    settingKey: string,
    settingValue: Option<string>,
    isPublic: bool)

  datatype NewsletterSubscriber = NewsletterSubscriber(
    id: string,
    email: string,
    isSubscribed: bool,
    unsubscriptionDate: Option<string>)
}
