// The command objects the handlers consume: plain data, one shape per use
// case, with the fields Domain/handlers.py reads from each.

module Commands {
  import opened Records

  datatype PublishAdvertisement = PublishAdvertisement(
    title: string,
    description: string,
    localisation: Option<Location>,
    service: Option<map<string, string>>,
    prices: Option<map<string, int>>,
    owner: string)

  datatype UnPublishAdvertisement = UnPublishAdvertisement(owner: string, uuid: string)

  datatype UpdateAdvertisementPublishedDate = UpdateAdvertisementPublishedDate(owner: string, uuid: string)

  datatype PromoteAdvertisementToPremium = PromoteAdvertisementToPremium(owner: string, uuid: string)

  datatype DeleteAdvertisement = DeleteAdvertisement(owner: string, uuid: string)

  datatype AddComment = AddComment(targetUuid: string, owner: string, content: string)

  datatype ModifyComment = ModifyComment(owner: string, uuid: string, content: string)

  datatype DeleteComment = DeleteComment(owner: string, uuid: string)

  datatype SendSms = SendSms(userUuid: string, to: string, message: string)

  datatype Report = Report(owner: string, targetUuid: string, content: string)

  datatype CommentReport = CommentReport(owner: string, targetUuid: string, content: string)

  datatype OpenReport = OpenReport(moderatorUuid: string, reportUuid: string)

  datatype CloseReport = CloseReport(moderatorUuid: string, reportUuid: string)

  /** Used by both the activate and the disable handler. */
  datatype ActivateUser = ActivateUser(adminUuid: string, userUuid: string)

  datatype SetPrivatePics = SetPrivatePics(userUuid: string, pictures: seq<PrivatePicture>)

  datatype UpdateBilling = UpdateBilling(userUuid: string, cardNumber: string, expiryDate: string, secretCode: string, fullname: string)
}
