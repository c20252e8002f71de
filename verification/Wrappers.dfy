/** Results and the error codes the modelled operations raise. */
module Wrappers {

  datatype Option<+T> = None | Some(value: T)

  datatype Result<+T> = Success(value: T) | Failure(error: Error)

  datatype Error =
    | InvalidArithmetic
    | InvalidAdmission
    | InvalidAttestation
    | UnexpectedAttestation
    | MissingAttestation
    | MemoryIdentityConflict
    | DanglingRelation
    | DuplicateBundleRecord
    | BundleTooLarge
    | TransferReplayConflict
    | DependencyBaseReceiptMissing
    | InvalidDependencyBoundary
    | DependencyRejected
    | InvalidLimit
    | RecordNotAdmitted
    | InvalidCursor
    | CursorAhead
    | InvalidTransferLimit
    | StoredAttestationInvalid
    | DependencyBudgetExceeded
    | DependencyRevalidationRequired
    | DependencyNotAdmitted
    | UnsignedDependency
    | StoredRecordInvalid
    | TrustRefused
    | DependencyValidationChanged
    | DependencyFrontierIncomplete
    | DependencyFrontierIdentityConflict
    | PendingTransferCursorChanged
    | ReceiveCursorChanged
    | ReceiveReceiptMissing
    | TransferHistoryDowngrade
    | LegacyHistoryAnchorRequired
    | TransferHistoryAnchorMismatch
    | IncompleteTransferClosure
    | DependencyBaseEvidenceMissing
    | DependencyBaseEvidenceMismatch
    | InvalidCaptureState
    | InvalidCaptureProjection
    | CaptureProjectionChanged
    | CaptureProjectionLimit
    | CaptureRequestConflict
    | CaptureHistoryLimit
    | CapturePendingLimit
    | CapturePendingBytesLimit
    | InvalidCaptureHead
    | InvalidCapturePredecessor
    | UnknownCaptureJob
    | UnknownTurn
    | UnknownSession
    | SessionIsClosed
    | HostSessionLimit
    | HostPendingLimit
    | HostTurnLimit
    | VisibleUserRequired
    | TurnConflict
    | TurnAborted
    | TurnNotAccepted
    | InvalidCaptureTurn
    | CaptureNotEnabled
    | CapturePredecessorPending
    | CapturePredecessorChanged
    | EvidenceNotAdmitted
    | RequestConflict
    | InvalidCompatReceipt
    | InvalidCompatProjection
    | CaptureDependencyPending
    | CaptureDependencyNotAdmitted
    | CaptureReceiptMissing
    | InvalidClientProjection
    | CopyInvalidJournal
    | CopyPathConflict
    | CopyOutputExists
    | CopyDestinationMissing
    | CopySourceConflict
    | CopyDestinationConflict
    | ArtifactInvalidJournal
    | ArtifactBindingMismatch
    | ArtifactOutputWithoutJournal
    | ArtifactOutputConflict
    | ArtifactContentMismatch
    | ArtifactVersionChanged
    | ArtifactPartialMissing
    | ArtifactPartialConflict
    | ArtifactJournalCapacity
    | ArtifactBudgetTooSmall
    | ArtifactShortRead
    | InvalidRecallCursor
    | ResultExceedsBudget
    | RecordNotReadable
    | TrustStateInvalid
    | TrustTransitionStale
    | TrustTransitionRefused
    | TrustTransitionInvalid
    | CatalogRejected
    | CatalogCopyFailed
    | InvalidExperience
    | ExperienceTooLarge
    | AmbiguousExperienceSource
}
