/** Platform capabilities and provider snapshots, shared by the registry, the worker
    supervisor and readiness. */
module Capability {
  import opened Prelude

  /** OtherKind stands for any text that names no capability. */
  datatype CapabilityKind =
    | PersonPresence | FaceDetection | FaceIdentification | FaceLiveness
    | VoiceActivity | SpeakerIdentification | SpeakerVerification
    | SpeechTranscription | AttentionEstimation | BusyState | GestureDetection
    | DeviceState | DisplayText | AvatarAttend | AvatarExpression
    | SpeechSynthesis | Gesture | Light | Locomotion
    | OtherKind(name: string)

  datatype ProviderHealth = Healthy | Unhealthy

  datatype ProviderSnapshot = ProviderSnapshot(
    providerID: string,
    instanceID: string,
    protocolVersion: string,
    implementationVersion: string,
    capabilities: seq<CapabilityKind>,
    health: ProviderHealth,
    leaseExpiresAt: Time)
}
