# Verification of the request path and the reconcilers

The project models three parts of the repository and proves what they keep.

**The ext_proc stream.** One stream of the Endpoint Picker is an unbounded sequence of messages from Envoy
that drives a phase, a byte buffer shared by request and response, queued replies, the running-requests
gauge and the completion hook. `ExtProc.dfy` says what one message does as a function on values (`Step`,
`Run`, `Process`); `ExtProcServer.dfy` is the server in its own form, an object whose methods assign its
fields and send replies one at a time, each proved equal to that function. Everything outside is a
parameter: the director, the JSON codec, the reply generators and, for each send attempt, whether it
succeeds. The theorems (`ExtProcChunking`, `ExtProcOrder`, `ExtProcPhase`, `ExtProcHook`, `ExtProcGauge`,
`ExtProcBodies`, `ExtProcHeaders`, `ExtProcDirector`, `ExtProcStreams`) are about every run, cut off anywhere,
with any director answer and any failing send; `ExtProcConversation` gives one whole conversation to the letter.

**The scheduling profile.** Registration of plugins and one cycle of filters, weighted scorers and picker,
as loops over fields and maps (`SchedulerProfile.dfy`), with what they compute stated independently of
iteration order (`SchedulerRegistration.dfy`, `SchedulerScoring.dfy`).

**The two reconcilers.** The API server is a map from kind, namespace and name to objects; every call may
be answered, refused, or carried out with the answer lost (`Cluster.dfy`). A reconcile is a list of steps
carried out by methods that stop at the first error (`SchedulerInstallController.dfy`,
`SimulatorDeploymentController.dfy`). Proved are convergence after failures, silence of a second run,
what each live object holds afterwards in terms of what the user wrote (`SchedulerInstallObjects.dfy`,
`SimulatorDeploymentObjects.dfy`), what is left untouched, when the references between the objects resolve, and
stability of the one Service both reconcilers may write, over all interleavings of their single calls
(`TwoControllers.dfy`, `SoloRuns.dfy`).

Where a property has a limit, the limit is a theorem too: its exact condition, and in `ExtProcLimits.dfy` and
`OperatorLimits.dfy` a run from a new stream or an empty cluster that reaches it, named last below. These are
the ones a maintainer may want to know:

- A second `ResponseHeaders` message on a stream breaks the reply order (`OneResponseIffAnnouncedOnce`,
  `SecondResponseBreaksOrder`) and can take the phase back (`PhaseDropsIff`, `PhaseDrops`).
- A second end-of-stream chunk of a streamed response runs the completion hook again (`StreamingHookOnceIff`,
  `HookRunsTwice`).
- A second complete request body for another model leaves the gauge unbalanced (`SecondBodyBalancedIff`,
  `GaugeLeftUnbalanced`).
- A marshalling error after routing is shadowed: no reply is sent and the stream stays open
  (`RequestNeverStalls`, `RequestStalls`).
- Request bytes left in the shared buffer go out in front of a non-JSON response, or in the middle of it
  (`SharedBufferPassed`, `PassThroughExactIff`, `RequestBytesLeak`, `RequestBytesInside`).
- A second buffered response on a stream comes with the first one in front of it (`AllBufferedReplies`,
  `FirstResponseRepeated`).
- The EPP Service reaches the EPP container only on port 9002 (`EppServiceReachesIff`, `EppUnreached`).
- A pool outside `simulatorNamespace` is not covered by the ReferenceGrant (`RouteResolves`,
  `PoolNotCovered`).
- An EPP named like the proxy Service, in the same namespace, makes every reconcile rewrite that Service
  twice (`SecondRunSilentIff`, `StableIff`, `SecondRunNotSilent`).
- On a server that adds defaults to a Deployment's containers, every reconcile with an EPP sends an Update
  again, which changes nothing (`SecondRunSilentByIff`, `DefaultsSentAgain`).
- The Service of the simulator's Istio gateway targets a port its container does not declare
  (`GatewayLiveIff`, `IstioUnreached`), the standard gateway's Service also selects the Istio gateway's pods
  (`StandardSelectsIstioLive`, `StandardTakesIstioPods`), and the simulator's EPP runs under a ServiceAccount
  nobody creates (`EppAccountIff`, `EppAccountMissing`).
- A SimulatorDeployment with only the prefill stage gets no Ready condition (`StatusReportedIff`,
  `PrefillUnreported`).
- The names of the stage Deployments do not contain the resource's name: two SimulatorDeployments in one
  namespace that ask for different replicas of a stage scale its Deployment back and forth, and so do one
  named `llm-d-modelservice` with a single Deployment and another with a decode stage (`SharingSettlesIff`,
  `NeverBothSilent`, `StagesFight`, `SingleFightsStage`).

Two places where the code and its own comments differ, and the model follows the code: replies are said to
go out header first (`server.go:390-391`), but on a stream whose request headers never came the body goes
out without one (`server.go:404`); and the schema's default simulator image
(`api/v1alpha1/simulatordeployment_types.go:16`) is not the one `setDefaults` fills in
(`controllers/simulatordeployment_controller.go:144-146`).

## Model

| member | source | states |
|---|---|---|
| `ExtProcServer.RequestContext.constructor` | llm-d-inference-scheduler/_deps/gateway-api-inference-extension/pkg/epp/handlers/server.go:139-152 | a new stream is in phase RequestReceived with nothing queued, sent, called or counted |
| `ExtProcServer.RequestContext.Send` | llm-d-inference-scheduler/_deps/gateway-api-inference-extension/pkg/epp/handlers/server.go:398-401 | a send either delivers the reply or fails; the attempt counts either way |
| `ExtProcServer.RequestContext.SendHeader` | llm-d-inference-scheduler/_deps/gateway-api-inference-extension/pkg/epp/handlers/server.go:395-403 | a due header reply moves the phase only after it is out; what remains of the pass is the pass from there |
| `ExtProcServer.RequestContext.SendEachRequestBody` | llm-d-inference-scheduler/_deps/gateway-api-inference-extension/pkg/epp/handlers/server.go:408-412 | the loop delivers exactly the replies before the first failing send |
| `ExtProcServer.RequestContext.SendEachResponseBody` | llm-d-inference-scheduler/_deps/gateway-api-inference-extension/pkg/epp/handlers/server.go:436-445 | as above, and the phase is complete exactly if an end-of-stream reply was among the delivered ones |
| `ExtProcServer.RequestContext.SendRequestBodies` | llm-d-inference-scheduler/_deps/gateway-api-inference-extension/pkg/epp/handlers/server.go:404-418 | the gauge, the running flag and the emptied slot change only if the whole batch went out |
| `ExtProcServer.RequestContext.SendResponseBodies` | llm-d-inference-scheduler/_deps/gateway-api-inference-extension/pkg/epp/handlers/server.go:433-448 | the response slot is emptied only if the whole batch went out |
| `ExtProcServer.RequestContext.UpdateStateAndSendIfNeeded` | llm-d-inference-scheduler/_deps/gateway-api-inference-extension/pkg/epp/handlers/server.go:392-456 | one pass sends the due replies, header before body, cut off at the first failing send (the specification computes the due queue first and truncates it) |
| `ExtProcServer.RequestContext.ReceiveRequestBody` | llm-d-inference-scheduler/_deps/gateway-api-inference-extension/pkg/epp/handlers/server.go:217-265 | a chunk is buffered; the last one hands the whole buffer to the one-shot handler |
| `ExtProcServer.RequestContext.CompleteRequest` | llm-d-inference-scheduler/_deps/gateway-api-inference-extension/pkg/epp/handlers/server.go:226-254 | decode, route, marshal, queue; a decode error is BadRequest, a marshalling error is shadowed and reports nothing |
| `ExtProcServer.RequestContext.ReceiveResponseHeaders` | llm-d-inference-scheduler/_deps/gateway-api-inference-extension/pkg/epp/handlers/server.go:268-298 | the loop over the headers sets the status and streaming flags exactly if some header asks for it; the phase becomes ResponseReceived |
| `ExtProcServer.RequestContext.ReceiveResponseBody` | llm-d-inference-scheduler/_deps/gateway-api-inference-extension/pkg/epp/handlers/server.go:300-361 | streaming chunks are queued as they come and the last runs the hook; others are buffered to the end |
| `ExtProcServer.RequestContext.CompleteResponse` | llm-d-inference-scheduler/_deps/gateway-api-inference-extension/pkg/epp/handlers/server.go:330-360 | a buffered response that is not JSON is queued as it is; a JSON one goes to the response handler |
| `ExtProcServer.RequestContext.ReceiveRequestHeaders` | llm-d-inference-scheduler/_deps/gateway-api-inference-extension/pkg/epp/handlers/server.go:200-216 | a request id is drawn if none came; the header helper may queue an early header reply or fail |
| `ExtProcServer.RequestContext.Receive` | llm-d-inference-scheduler/_deps/gateway-api-inference-extension/pkg/epp/handlers/server.go:199-364 | the switch over the message kinds |
| `ExtProcServer.RequestContext.SendError` | llm-d-inference-scheduler/_deps/gateway-api-inference-extension/pkg/epp/handlers/server.go:367-382 | an error becomes one immediate reply, or none if its code has no status; the stream ends in each case |
| `ExtProcServer.RequestContext.Turn` | llm-d-inference-scheduler/_deps/gateway-api-inference-extension/pkg/epp/handlers/server.go:197-386 | one turn of the receive loop refines the step function of the stream |
| `ExtProcServer.RequestContext.Close` | llm-d-inference-scheduler/_deps/gateway-api-inference-extension/pkg/epp/handlers/server.go:158-178 | the deferred function gives back the gauge if the request is running and runs the hook if a pod was scheduled and the response is not complete |
| `ExtProcServer.Serve` | llm-d-inference-scheduler/_deps/gateway-api-inference-extension/pkg/epp/handlers/server.go:131-388 | a whole call of Process, for any messages, collaborators, send failures and exit, refines the run function |
| `ExtProc.PassHeaderFirst` | llm-d-inference-scheduler/_deps/gateway-api-inference-extension/pkg/epp/handlers/server.go:395-403 | a pass with a header due is that header followed by the pass that remains |
| `ExtProc.StepSettles` | llm-d-inference-scheduler/_deps/gateway-api-inference-extension/pkg/epp/handlers/server.go:383-387 | after a turn that does not end the stream nothing sendable waits |
| `ExtProc.RunAppend` | llm-d-inference-scheduler/_deps/gateway-api-inference-extension/pkg/epp/handlers/server.go:180-387 | a run over two message lists is the run over the first continued by the second, unless the first ended the stream |
| `ExtProcChunking.ChunksRefineOneShot` | llm-d-inference-scheduler/_deps/gateway-api-inference-extension/pkg/epp/handlers/server.go:217-265 | from any state with nothing due, receiving the chunks of a body is receiving the joined body at once |
| `ExtProcChunking.ChunkingIndependence` | llm-d-inference-scheduler/_deps/gateway-api-inference-extension/pkg/epp/handlers/server.go:217-265 | two streams that differ only in how the request body was cut have the same outcome: replies, director calls, gauge, hook, exit, final state |
| `ExtProcOrder.StepKeeps` | llm-d-inference-scheduler/_deps/gateway-api-inference-extension/pkg/epp/handlers/server.go:118-129 | inductive invariant tying phase, queued replies and replies sent together after every turn, with any director answer and any failing send |
| `ExtProcOrder.RepliesInOrder` | llm-d-inference-scheduler/_deps/gateway-api-inference-extension/pkg/epp/handlers/server.go:390-456 | on every run the replies form a word of the protocol's order, and the request bodies sent are a prefix of one batch |
| `ExtProcOrder.PhaseIsTrace` | llm-d-inference-scheduler/_deps/gateway-api-inference-extension/pkg/epp/handlers/server.go:118-129 | on every live stream the phase is a function of the replies sent, is at least ResponseReceived exactly if a response was announced, and nothing sendable waits |
| `ExtProcPhase.EnvoySeesOneConversation` | llm-d-inference-scheduler/_deps/gateway-api-inference-extension/pkg/epp/handlers/server.go:390-456 | with at most one ResponseHeaders message: request side before response side, each header once and before its bodies, nothing after the end of a body on its side, an immediate reply unique and last |
| `ExtProcPhase.RequestSideFirst` | llm-d-inference-scheduler/_deps/gateway-api-inference-extension/pkg/epp/handlers/server.go:390-456 | with any number of them: no request-side reply follows a response-side or immediate one |
| `ExtProcPhase.PhaseNeverDecreases` | llm-d-inference-scheduler/_deps/gateway-api-inference-extension/pkg/epp/handlers/server.go:287 | with at most one ResponseHeaders message the phase never goes back on any run, ended by a failing send or an immediate error included |
| `ExtProcPhase.PhaseDropsIff` | llm-d-inference-scheduler/_deps/gateway-api-inference-extension/pkg/epp/handlers/server.go:287 | one message, ending the stream or not, takes the phase back exactly if it announces a response while one is being answered and its header does not go out, or after the end of a response body when not everything goes out or no end is queued again |
| `ExtProcPhase.NoRequestReplyAfterResponse` | llm-d-inference-scheduler/_deps/gateway-api-inference-extension/pkg/epp/handlers/server.go:287-431 | from the turn of a ResponseHeaders message on, that turn and its failing sends included, no request-side reply is sent |
| `ExtProcPhase.OneResponseIffAnnouncedOnce` | llm-d-inference-scheduler/_deps/gateway-api-inference-extension/pkg/epp/handlers/server.go:287-298 | a live stream's replies respect the order of a single response if and only if at most one ResponseHeaders message arrived |
| `ExtProcHook.HookCount` | llm-d-inference-scheduler/_deps/gateway-api-inference-extension/pkg/epp/handlers/server.go:158-178 | however Process returns, the completion hook has run once per completing message, and once more exactly if a pod was scheduled and there was none |
| `ExtProcHook.HookExactlyOnce` | llm-d-inference-scheduler/_deps/gateway-api-inference-extension/pkg/epp/handlers/server.go:168-177 | on every exit, with a pod scheduled and at most one end-of-stream response chunk, the hook has run exactly once |
| `ExtProcHook.StreamingHookOnceIff` | llm-d-inference-scheduler/_deps/gateway-api-inference-extension/pkg/epp/handlers/server.go:306-311 | the limit, however the stream ends: once the server streams and nothing has completed, the hook runs exactly once if and only if at most one more end-of-stream chunk is received |
| `ExtProcGauge.StepGauge` | llm-d-inference-scheduler/_deps/gateway-api-inference-extension/pkg/epp/handlers/server.go:404-418 | every turn keeps the gauge invariant: a running stream has made one increment and no other move, a stream not running none; with one request body it is counted under the model it names |
| `ExtProcGauge.TeardownBalanced` | llm-d-inference-scheduler/_deps/gateway-api-inference-extension/pkg/epp/handlers/server.go:164-166 | a closed stream has given back what it took, for every model, exactly if it still names the model it counted |
| `ExtProcGauge.SecondBodyBalancedIff` | llm-d-inference-scheduler/_deps/gateway-api-inference-extension/pkg/epp/handlers/server.go:240-264 | the limit: after a second complete request body the gauge balances if and only if the director names the same model again |
| `ExtProcGauge.ExecInv` | llm-d-inference-scheduler/_deps/gateway-api-inference-extension/pkg/epp/handlers/server.go:131-178 | invariant of a server with any number of streams whose turns and single gauge moves interleave in any order |
| `ExtProcGauge.GaugeCountsHolders` | llm-d-inference-scheduler/_deps/gateway-api-inference-extension/pkg/epp/handlers/server.go:164-166 | at every point of every interleaving of turns and single gauge moves, the gauge of a model is the number of streams that have made their increment under it and not yet their decrement |
| `ExtProcGauge.GaugeCountsServing` | llm-d-inference-scheduler/_deps/gateway-api-inference-extension/pkg/epp/handlers/server.go:404-418 | whenever no turn is under way the gauge of a model is the number of live streams that have sent their whole request body batch and name the model |
| `ExtProcGauge.GaugeReturnsToStart` | llm-d-inference-scheduler/_deps/gateway-api-inference-extension/pkg/epp/handlers/server.go:164-166 | when all streams have ended and made their last moves the gauge of every model is back at its start |
| `ExtProcBodies.RequestNeverStalls` | llm-d-inference-scheduler/_deps/gateway-api-inference-extension/pkg/epp/handlers/server.go:215-264 | optional headers, then any chunks: once the body decodes, is routed and marshals, its whole batch is out in the last chunk's pass, after one header reply exactly if headers were seen, and that tells the endpoint, size and headers of the director's answer unless it was out early; if marshalling fails nothing more is sent and the stream stays open |
| `ExtProcBodies.StreamedResponseReplies` | llm-d-inference-scheduler/_deps/gateway-api-inference-extension/pkg/epp/handlers/server.go:300-319 | with any other messages anywhere, and however the stream ends, the body replies sent are the first of those to the streamed chunks, end marks included, and all of them while the stream is up |
| `ExtProcBodies.StreamedResponseConserved` | llm-d-inference-scheduler/_deps/gateway-api-inference-extension/pkg/epp/handlers/server.go:300-319 | so streamed response bytes sent are a prefix of those received, in order, and all of them while the stream is up: no queued chunk is overwritten |
| `ExtProcBodies.ResponseChunksRefineOneShot` | llm-d-inference-scheduler/_deps/gateway-api-inference-extension/pkg/epp/handlers/server.go:320-360 | a buffered response does not depend on how it was cut into chunks |
| `ExtProcBodies.AllBufferedReplies` | llm-d-inference-scheduler/_deps/gateway-api-inference-extension/pkg/epp/handlers/server.go:320-360 | any number of buffered responses, other messages anywhere: Envoy receives for each, in order, the replies to itself if it is not JSON and otherwise to the payload its handler leaves, or the first ones of them if the stream breaks off; the buffer is emptied by completed request bodies only |
| `ExtProcBodies.BufferedResponseReplies` | llm-d-inference-scheduler/_deps/gateway-api-inference-extension/pkg/epp/handlers/server.go:320-360 | for a single buffered response: the replies to what the shared buffer held when it ended, handled with the number of director calls made by then, or none if it never ended |
| `ExtProcBodies.PayloadSent` | llm-d-inference-scheduler/_deps/gateway-api-inference-extension/pkg/epp/handlers/server.go:330-341 | a buffered JSON response reaches Envoy as exactly the payload its handler leaves, as a prefix of it if the stream breaks off, and not at all if there is no payload |
| `ExtProcBodies.SharedBufferPassed` | llm-d-inference-scheduler/_deps/gateway-api-inference-extension/pkg/epp/handlers/server.go:221-339 | a buffered non-JSON response with any messages anywhere, request bodies between its chunks included, reaches Envoy as exactly what the shared buffer has collected when the response ends, as a prefix of it if the stream breaks off, and not at all if it never ends |
| `ExtProcBodies.PassThroughExactIff` | llm-d-inference-scheduler/_deps/gateway-api-inference-extension/pkg/epp/handlers/server.go:221-339 | if no request body is completed in the middle of a buffered non-JSON response, what Envoy receives is the response to the byte if and only if no request byte was left in the shared buffer when the response ended, other messages allowed anywhere |
| `ExtProcBodies.CompletedRequestEmptiesBuffer` | llm-d-inference-scheduler/_deps/gateway-api-inference-extension/pkg/epp/handlers/server.go:237-238 | a completed request body leaves the shared buffer empty |
| `ExtProcBodies.BufferedResponseConserved` | llm-d-inference-scheduler/_deps/gateway-api-inference-extension/pkg/epp/handlers/server.go:221-339 | any messages, no request body completed in the middle of the response and no request byte left in the buffer: a buffered non-JSON response reaches Envoy as a prefix of its chunks, and as exactly their concatenation if the stream does not break off |
| `ExtProcConversation.RequestServed` | llm-d-inference-scheduler/_deps/gateway-api-inference-extension/pkg/epp/handlers/server.go:200-265 | headers and any chunks that are decoded, routed and marshalled: exactly one header reply and the marshalled body are out, the header reply early from the helper or from the director's answer; the director was asked once, about the helper's headers, which carry a request id, the document and the last metadata |
| `ExtProcConversation.HeadersRefused` | llm-d-inference-scheduler/_deps/gateway-api-inference-extension/pkg/epp/handlers/server.go:367-382 | headers the helper refuses: the only reply is the error with its HTTP status, and nothing is asked, counted or run |
| `ExtProcConversation.RequestRefused` | llm-d-inference-scheduler/_deps/gateway-api-inference-extension/pkg/epp/handlers/server.go:226-245 | a request that is no JSON or that the director refuses: the early header reply, if any, then the error with its HTTP status, whatever follows; nothing is counted, and the hook runs for a pod scheduled before |
| `ExtProcConversation.WholeConversation` | llm-d-inference-scheduler/_deps/gateway-api-inference-extension/pkg/epp/handlers/server.go:131-388 | a whole served conversation: every reply, director call, gauge move and hook run, in order, in terms of the messages and of what the collaborators answer, for event streams and for buffered responses |
| `ExtProcHeaders.EndsAccounted` | llm-d-inference-scheduler/_deps/gateway-api-inference-extension/pkg/epp/handlers/server.go:367-385 | every call: all sends before the last succeeded, it returns with a send error exactly if the last one failed, and as rejected only after an immediate reply |
| `ExtProcHeaders.HeaderReplyOrigin` | llm-d-inference-scheduler/_deps/gateway-api-inference-extension/pkg/epp/handlers/server.go:200-256 | every run: a request header reply tells the endpoint the helper named early in that turn, or the endpoint, size and headers that follow from the director's answer in that turn |
| `ExtProcHeaders.ResponseHeadersEchoed` | llm-d-inference-scheduler/_deps/gateway-api-inference-extension/pkg/epp/handlers/server.go:268-298 | every run: response headers go back to Envoy as they came, in order, and all of them while the stream is up |
| `ExtProcHeaders.FlagsIff` | llm-d-inference-scheduler/_deps/gateway-api-inference-extension/pkg/epp/handlers/server.go:199-298 | a live stream is in streaming mode exactly if some response header has named the event stream type, with or without parameters; is marked as failed exactly if one has named a status other than 200; and has seen request headers exactly if such a message came |
| `ExtProcHeaders.TrailersIgnored` | llm-d-inference-scheduler/_deps/gateway-api-inference-extension/pkg/epp/handlers/server.go:266-364 | trailers of either side change nothing but the metadata at hand and are not answered |
| `ExtProcDirector.DirectorCalls` | llm-d-inference-scheduler/_deps/gateway-api-inference-extension/pkg/epp/handlers/server.go:200-318 | every live stream: the director has been called exactly as a small fold over the messages says, with the headers known by then, the decoded document, the metadata and the texts of streamed chunks |
| `ExtProcStreams.EachStreamAlone` | llm-d-inference-scheduler/_deps/gateway-api-inference-extension/pkg/epp/handlers/server.go:131-388 | many streams: in every interleaving of turns and gauge moves each stream is up exactly if none of its own messages ended it and Envoy did not hang up, and is in the state they lead to on a stream of its own |
| `ExtProcLimits.SecondResponseBreaksOrder` | llm-d-inference-scheduler/_deps/gateway-api-inference-extension/pkg/epp/handlers/server.go:287-298 | a run with two ResponseHeaders messages whose replies are out of order |
| `ExtProcLimits.PhaseDrops` | llm-d-inference-scheduler/_deps/gateway-api-inference-extension/pkg/epp/handlers/server.go:287 | a run on which a ResponseHeaders message after the end of a response body takes the phase back |
| `ExtProcLimits.HookRunsTwice` | llm-d-inference-scheduler/_deps/gateway-api-inference-extension/pkg/epp/handlers/server.go:306-311 | a run with two end-of-stream chunks of a streamed response after which the hook has run twice for one request |
| `ExtProcLimits.GaugeLeftUnbalanced` | llm-d-inference-scheduler/_deps/gateway-api-inference-extension/pkg/epp/handlers/server.go:164-166 | a run with two request bodies routed to different models after which the gauge is not balanced |
| `ExtProcLimits.RequestStalls` | llm-d-inference-scheduler/_deps/gateway-api-inference-extension/pkg/epp/handlers/server.go:247-251 | a run whose routed document cannot be marshalled: no reply, and the stream goes on |
| `ExtProcLimits.RequestBytesLeak` | llm-d-inference-scheduler/_deps/gateway-api-inference-extension/pkg/epp/handlers/server.go:221-337 | a run on which Envoy receives an unfinished request body in front of a response that is not JSON |
| `ExtProcLimits.RequestBytesInside` | llm-d-inference-scheduler/_deps/gateway-api-inference-extension/pkg/epp/handlers/server.go:221-337 | a run on which Envoy receives request bytes in the middle of a response that is not JSON |
| `ExtProcLimits.FirstResponseRepeated` | llm-d-inference-scheduler/_deps/gateway-api-inference-extension/pkg/epp/handlers/server.go:321-337 | a run on which Envoy receives the bytes of a first buffered response again in front of the second |
| `SchedulerProfile.SchedulerProfile.AddPlugins` | llm-d-inference-scheduler/_deps/gateway-api-inference-extension/pkg/epp/scheduling/framework/scheduler_profile.go:76-95 | the loop registers one plugin after another and stops at the first error |
| `SchedulerProfile.SchedulerProfile.RunFilterPlugins` | llm-d-inference-scheduler/_deps/gateway-api-inference-extension/pkg/epp/scheduling/framework/scheduler_profile.go:130-148 | the loop with early exit computes the filter chain and calls no filter after the list is empty |
| `SchedulerProfile.SchedulerProfile.RunScorerPlugins` | llm-d-inference-scheduler/_deps/gateway-api-inference-extension/pkg/epp/scheduling/framework/scheduler_profile.go:150-201 | the accumulated map holds, for every pod given or mentioned, the weighted sum of its clamped scores |
| `SchedulerProfile.Accumulate` | llm-d-inference-scheduler/_deps/gateway-api-inference-extension/pkg/epp/scheduling/framework/scheduler_profile.go:166-170 | one scorer's result is added the same way whatever the order its map is visited in |
| `SchedulerProfile.Listing` | llm-d-inference-scheduler/_deps/gateway-api-inference-extension/pkg/epp/scheduling/framework/scheduler_profile.go:205-210 | the slice for the picker lists every scored pod exactly once with its score |
| `SchedulerProfile.SchedulerProfile.RunPickerPlugin` | llm-d-inference-scheduler/_deps/gateway-api-inference-extension/pkg/epp/scheduling/framework/scheduler_profile.go:203-214 | the picker is asked once, about every scored pod |
| `SchedulerProfile.SchedulerProfile.Run` | llm-d-inference-scheduler/_deps/gateway-api-inference-extension/pkg/epp/scheduling/framework/scheduler_profile.go:117-128 | a cycle fails exactly if the filters leave no pod, and then calls no scorer or picker; otherwise the picker sees the accumulated scores |
| `SchedulerRegistration.RegisterAppend` | llm-d-inference-scheduler/_deps/gateway-api-inference-extension/pkg/epp/scheduling/framework/scheduler_profile.go:76-95 | registering xs and then ys is registering xs followed by ys, errors included |
| `SchedulerRegistration.RegisterHolds` | llm-d-inference-scheduler/_deps/gateway-api-inference-extension/pkg/epp/scheduling/framework/scheduler_profile.go:76-95 | after a success the profile holds scorers and filters in input order, weighted scorers unwrapped for their other roles |
| `SchedulerRegistration.RegisterSucceedsIff` | llm-d-inference-scheduler/_deps/gateway-api-inference-extension/pkg/epp/scheduling/framework/scheduler_profile.go:81-91 | registration succeeds exactly if no scorer lacks a weight and at most one picker results |
| `SchedulerRegistration.RegisterFailure` | llm-d-inference-scheduler/_deps/gateway-api-inference-extension/pkg/epp/scheduling/framework/scheduler_profile.go:78-91 | after an error the profile holds the plugins before the failing one, and of that one the roles registered before its failure |
| `SchedulerRegistration.PickerNeverReplaced` | llm-d-inference-scheduler/_deps/gateway-api-inference-extension/pkg/epp/scheduling/framework/scheduler_profile.go:87-91 | over any sequence of calls, failed or not, a registered picker stays |
| `SchedulerScoring.EarlyExitRefinesComposition` | llm-d-inference-scheduler/_deps/gateway-api-inference-extension/pkg/epp/scheduling/framework/scheduler_profile.go:130-148 | for filters that only leave pods out, the early-exit loop is the composition of all filters and its result an ordered sub-list |
| `SchedulerScoring.EarlyExitExact` | llm-d-inference-scheduler/_deps/gateway-api-inference-extension/pkg/epp/scheduling/framework/scheduler_profile.go:141-143 | for arbitrary filters the loop equals the composition exactly if the skipped filters map the empty list to itself |
| `SchedulerScoring.StopsAtEmpty` | llm-d-inference-scheduler/_deps/gateway-api-inference-extension/pkg/epp/scheduling/framework/scheduler_profile.go:133-150 | the loop stops at the first filter that leaves nothing; all before it left something, and the result is what the called ones make of the pods |
| `SchedulerScoring.CycleCallsExact` | llm-d-inference-scheduler/_deps/gateway-api-inference-extension/pkg/epp/scheduling/framework/scheduler_profile.go:116-190 | the plugin calls of a cycle one by one: the filters up to the one that leaves nothing, then, if pods are left, every scorer and the picker |
| `SchedulerScoring.KeysAreGivenIff` | llm-d-inference-scheduler/_deps/gateway-api-inference-extension/pkg/epp/scheduling/framework/scheduler_profile.go:166-170 | the scored pods are the given ones if and only if no scorer returns a pod it was not given |
| `SchedulerScoring.ScoreBounds` | llm-d-inference-scheduler/_deps/gateway-api-inference-extension/pkg/epp/scheduling/framework/scheduler_profile.go:256-264 | with non-negative weights a score lies between 0 and the sum of the weights |
| `SchedulerScoring.ScorerOrderIrrelevant` | llm-d-inference-scheduler/_deps/gateway-api-inference-extension/pkg/epp/scheduling/framework/scheduler_profile.go:160-173 | the weighted sum does not depend on the order of the scorers |
| `SchedulerScoring.ScorerAdds` | llm-d-inference-scheduler/_deps/gateway-api-inference-extension/pkg/epp/scheduling/framework/scheduler_profile.go:163-172 | one more scorer adds exactly score times weight for a score in range, the weight above the range and nothing below it or without a score |
| `SchedulerScoring.BetterRanksHigher` | llm-d-inference-scheduler/_deps/gateway-api-inference-extension/pkg/epp/scheduling/framework/scheduler_profile.go:154-173 | a pod no scorer puts below another is not ranked below it, and strictly above it if some scorer with a positive weight prefers it within the range |
| `SchedulerScoring.HitDominatesMiss` | llm-d-inference-scheduler/_deps/gateway-api-inference-extension/pkg/epp/scheduling/framework/scheduler_profile.go:154-173 | a scorer weighing at least as much as the others together never ranks a full hit below a full miss |
| `SchedulerScoring.DominatesIff` | llm-d-inference-scheduler/_deps/gateway-api-inference-extension/pkg/epp/scheduling/framework/scheduler_profile.go:154-173 | for non-negative weights and scorers that score only given pods, a full hit on a scorer is never ranked below a full miss if and only if its weight is at least the sum of the others |
| `SchedulerScoring.DefaultProfilePrefixDominates` | controllers/schedulerinstall_controller.go:340-350 | in the default profile (weights 1, 2, 1) the prefix-cache scorer dominates and the other two do not |
| `SchedulerScoring.ChosenPodIsBest` | llm-d-inference-scheduler/_deps/gateway-api-inference-extension/pkg/epp/scheduling/framework/scheduler_profile.go:117-128 | with a max-score picker the chosen pod survived the filters and no survivor has a higher weighted sum |
| `SchedulerScoring.WorsePodNotChosen` | llm-d-inference-scheduler/_deps/gateway-api-inference-extension/pkg/epp/scheduling/framework/scheduler_profile.go:116-190 | a max-score picker does not choose a pod while another survivor is at least as good on every scorer and better on one |
| `SchedulerScoring.MissChosenOnlyOnTie` | llm-d-inference-scheduler/_deps/gateway-api-inference-extension/pkg/epp/scheduling/framework/scheduler_profile.go:117-128 | a full miss on the dominating scorer is chosen over a full hit only if their sums are equal |
| `Conditions.UpdateConditions` | controllers/schedulerinstall_controller.go:950-960 | the loop overwrites the first Ready condition and stops, or appends one |
| `Conditions.SetReadyExact` | controllers/schedulerinstall_controller.go:950-960 | one update leaves as many Ready conditions as there were, or one if there was none; the others in order |
| `Conditions.SetReadyPlace` | controllers/schedulerinstall_controller.go:950-960 | the update is the first Ready condition of the result and every other condition keeps its index |
| `Conditions.OneReady` | controllers/simulatordeployment_controller.go:336-347 | over any run of updates, from at most one Ready condition there is at most one, and the others keep their places and order |
| `Cluster.Next32Wraps` | controllers/schedulerinstall_controller.go:444 | the health port is the gRPC port plus one in 32-bit arithmetic |
| `Cluster.ApiServer.CreateOrUpdate` | controllers/schedulerinstall_controller.go:264 | read, run the closure, then create, update or leave alone; on an error the cluster is as before or as after |
| `Cluster.AfterAt` | controllers/schedulerinstall_controller.go:551-563 | closed form of a series of create-or-updates: an untouched key is as before, a touched one is its live object, or its first writer's, under the last write |
| `Cluster.AfterAbsorbs` | controllers/schedulerinstall_controller.go:43-118 | a series repeated in full after any first part of it ends where running it once would have ended |
| `Cluster.SilentIff` | controllers/schedulerinstall_controller.go:43-118 | a repeated series makes no Create or Update call exactly if none of its writes changes anything |
| `SchedulerInstallController.Fetched.SetDefaults` | controllers/schedulerinstall_controller.go:120-231 | the in-place assignments compute the defaulted specification |
| `SchedulerInstallController.Reconciler.ReconcileEppAccess` | controllers/schedulerinstall_controller.go:254-323 | ServiceAccount, Role, RoleBinding in order, stopping at the first error |
| `SchedulerInstallController.Reconciler.ReconcileEppWorkload` | controllers/schedulerinstall_controller.go:325-514 | ConfigMap, Deployment in order, stopping at the first error |
| `SchedulerInstallController.Reconciler.ReconcileEpp` | controllers/schedulerinstall_controller.go:233-252 | the six writes of the EPP in order; the Service is in the cluster after success |
| `SchedulerInstallController.Reconciler.ReconcileGateway` | controllers/schedulerinstall_controller.go:567-595 | the Gateway, or nothing if the kind is not supported |
| `SchedulerInstallController.Reconciler.ReconcileProxyService` | controllers/schedulerinstall_controller.go:543-565 | the proxy Service, with labels only at creation |
| `SchedulerInstallController.Reconciler.ReconcileRouting` | controllers/schedulerinstall_controller.go:76-88 | the grant and then the route; a pool backend without a name is an error before either |
| `SchedulerInstallController.Reconciler.ReconcileReferenceGrant` | controllers/schedulerinstall_controller.go:667-709 | the ReferenceGrant, with merged labels |
| `SchedulerInstallController.Reconciler.ReconcileHTTPRoute` | controllers/schedulerinstall_controller.go:597-665 | the HTTPRoute to the proxy Service or to the pool |
| `SchedulerInstallController.Reconciler.ReconcileDestinationRule` | controllers/schedulerinstall_controller.go:711-752 | the DestinationRule, with merged labels |
| `SchedulerInstallController.Reconciler.ReconcileEnvoyFilter` | controllers/schedulerinstall_controller.go:754-912 | reads the EPP Service, fails without a cluster IP or under a foreign controller, and writes its address |
| `SchedulerInstallController.Reconciler.DeleteEnvoyFilter` | controllers/schedulerinstall_controller.go:914-932 | a disabled filter is deleted; its absence is no error |
| `SchedulerInstallController.Reconciler.ReconcileObjects` | controllers/schedulerinstall_controller.go:54-110 | success finishes the plan, an error leaves a first part of it; without failing calls it succeeds if the plan is sound |
| `SchedulerInstallController.Reconciler.UpdateStatus` | controllers/schedulerinstall_controller.go:934-962 | reads the resource again and sets its Ready condition |
| `SchedulerInstallController.Reconciler.Reconcile` | controllers/schedulerinstall_controller.go:43-118 | one reconcile with any failing calls; without failing calls it succeeds exactly if the plan is sound |
| `SchedulerInstall.PlanRanked` | controllers/schedulerinstall_controller.go:60-110 | every plan writes each object once, in a fixed order, but for the two Services; it never deletes what it writes |
| `SchedulerInstall.SeenKept` | controllers/schedulerinstall_controller.go:765-774 | what the reconciler reads for the EnvoyFilter is not changed by the writes before it |
| `SchedulerInstallConvergence.DefaultsIdempotent` | controllers/schedulerinstall_controller.go:120-231 | filling in defaults twice is filling them in once |
| `SchedulerInstallConvergence.DefaultsKeepUserFields` | controllers/schedulerinstall_controller.go:120-231 | every field the user set is kept in all sections, every field the writes rely on is set (names, ports, namespaces, parent and pool as far as the sections they are taken from exist), no section appears or vanishes |
| `SchedulerInstallConvergence.PlanKept` | controllers/schedulerinstall_controller.go:43-118 | an attempt, however it ends, leaves the plan of the next one as it was |
| `SchedulerInstallConvergence.FinishAbsorbs` | controllers/schedulerinstall_controller.go:43-118 | after an attempt broken off at any call, the full plan ends where it would have ended without it |
| `SchedulerInstallConvergence.Converges` | controllers/schedulerinstall_controller.go:43-118 | a success after any number of attempts, each failing at any call or not, ends in the cluster one success from the original would have produced |
| `SchedulerInstallConvergence.SuccessSettles` | controllers/schedulerinstall_controller.go:264-908 | drift: whatever the live objects were, after a success every closure of the plan (but the clashing EPP Service's) would change nothing |
| `SchedulerInstallConvergence.SettledMeans` | controllers/schedulerinstall_controller.go:264-908 | a closure changes nothing exactly if the live object holds what it writes: its content, replicas, controller and labels |
| `SchedulerInstallConvergence.SuccessObject` | controllers/schedulerinstall_controller.go:264-908 | a success leaves under each key of the plan the closure applied to the live object, or to the object sent if there was none, so labels set outside the closure count at creation only; a Service the EPP and the proxy share is created by the EPP's write and holds the proxy's |
| `SchedulerInstallObjects.SuccessFields` | controllers/schedulerinstall_controller.go:264-908 | a success leaves each object as its closure wants it and otherwise as it was: merged labels win over live ones and keep the others, replaced ones are all there is, and owner, replicas, content, cluster IP and the rest field by field |
| `SchedulerInstallObjects.OptionalFields` | controllers/schedulerinstall_controller.go:567-911 | the same of each optional object whose kind the server has |
| `SchedulerInstallObjects.TouchesOnlyAsked` | controllers/schedulerinstall_controller.go:43-118 | no attempt touches anything but the objects of enabled sections of kinds the server has; an EPP in a foreign namespace and a route to a nameless pool touch nothing |
| `SchedulerInstallObjects.FilterRemoved` | controllers/schedulerinstall_controller.go:914-932 | after a success a disabled EnvoyFilter is gone |
| `SchedulerInstallObjects.GatewayInstalled` | controllers/schedulerinstall_controller.go:567-595 | the live Gateway has the class, port and protocol the user wrote, or istio, 80 and HTTP |
| `SchedulerInstallObjects.GrantInstalled` | controllers/schedulerinstall_controller.go:667-709 | the live grant admits routes of the scheduler's namespace and carries the operator's two labels whatever it carried before; its other labels stay |
| `SchedulerInstallObjects.RouteInstalled` | controllers/schedulerinstall_controller.go:597-665 | the live route has the parent the user wrote, or this install's Gateway, and leads to the proxy Service or to the pool the user wrote, or the EPP's |
| `SchedulerInstallObjects.RuleInstalled` | controllers/schedulerinstall_controller.go:711-752 | the live rule has the proxy's host, the algorithm and limits the user wrote, or round robin and one, and the operator's labels |
| `SchedulerInstallObjects.FilterInstalled` | controllers/schedulerinstall_controller.go:754-911 | the live filter applies to the pods the user wrote, or to the Gateway's, has the EPP's port, the operator's labels, and the install as its controller |
| `SchedulerInstallObjects.AccessInstalled` | controllers/schedulerinstall_controller.go:254-323 | account, role and binding under the names and namespaces the user wrote; new cross-namespace objects are labelled and live ones keep their labels |
| `SchedulerInstallObjects.ConfigInstalled` | controllers/schedulerinstall_controller.go:325-412 | the live ConfigMap has the configuration of the profile the user wrote and this install's name; its other labels stay |
| `SchedulerInstallObjects.DeploymentInstalled` | controllers/schedulerinstall_controller.go:414-514 | the live EPP Deployment has the replicas, image, resources, ports, account and configuration the user wrote or the defaults named, and exactly the EPP's labels |
| `SchedulerInstallObjects.EppServiceInstalled` | controllers/schedulerinstall_controller.go:516-541 | the live EPP Service selects by the EPP's name and leads the port the user wrote, or 9002, to 9002 |
| `SchedulerInstallObjects.ProxyLabels` | controllers/schedulerinstall_controller.go:543-565 | the proxy Service keeps its labels and controller; a new one carries the operator's labels and has no controller unless the EPP's write created it |
| `SchedulerInstallController.ReadyTells` | controllers/schedulerinstall_controller.go:934-962 | after the status update the first Ready condition is true, reconciled, at the given time; the other conditions keep their places |
| `SchedulerInstallConvergence.SoundIff` | controllers/schedulerinstall_controller.go:54-110 | the exact condition for a plan without error: a simulator namespace, owned objects in the install's own namespace, a named pool for a pool backend, and for the EnvoyFilter an enabled EPP, a selector, a cluster IP and no foreign controller |
| `SchedulerInstallConvergence.SecondRunSilentIff` | controllers/schedulerinstall_controller.go:516-565 | on a server that stores what it is sent, a second success changes no object, and makes no Create or Update call if and only if the EPP Service and the proxy Service are not the same object |
| `ServerDefaults.SecondRunSilentByIff` | controllers/schedulerinstall_controller.go:426-565 | on a server that adds whatever it likes to the contents it is sent, a second success starts from the same plan and makes no call if and only if the two Services are apart and the server adds nothing to a content of the plan; if they are apart, the calls it makes change nothing |
| `ServerDefaults.StoredAsSent` | controllers/schedulerinstall_controller.go:264-908 | on a server that adds nothing this is the series of writes the methods of the reconciler are proved against, call for call |
| `SchedulerInstallConvergence.AttemptFrame` | controllers/schedulerinstall_controller.go:43-118 | no attempt, finished or broken off, touches an object the plan does not name |
| `SchedulerInstallReferences.EppReferencesResolve` | controllers/schedulerinstall_controller.go:300-321 | after a success the RoleBinding's role and subject, the Deployment's account and configuration exist, and its selector matches its pods |
| `SchedulerInstallReferences.EppServiceSelectsIff` | controllers/schedulerinstall_controller.go:426-435 | the EPP Service selects the EPP pods if and only if the Services do not clash or the proxy's selector matches them |
| `SchedulerInstallReferences.EppServiceReachesIff` | controllers/schedulerinstall_controller.go:530-537 | the EPP Service's target port is the container's gRPC port if and only if that is 9002 or, where the Service has become the proxy Service, the proxy's target port |
| `SchedulerInstallReferences.EppContainerAgrees` | controllers/schedulerinstall_controller.go:436-500 | the EPP container is told the ports it exposes and the pool the resource names, and gets the user's arguments last |
| `SchedulerInstallReferences.ProxyAsSpecified` | controllers/schedulerinstall_controller.go:543-565 | after a success the proxy Service has the type, ports and selector of the resource, whatever it was before; unset ports are 8200 and an open selector is exactly role decode and inferenceServing true |
| `SchedulerInstallReferences.RouteResolves` | controllers/schedulerinstall_controller.go:611-632 | a Service backend of the route exists with the named port; the ReferenceGrant covers the backend if and only if it is the Service or a pool in simulatorNamespace |
| `SchedulerInstallReferences.DefaultParentResolves` | controllers/schedulerinstall_controller.go:186-191 | a route whose parent is left open refers to the Gateway that was written |
| `SchedulerInstallReferences.RuleResolves` | controllers/schedulerinstall_controller.go:745-748 | the DestinationRule's host is the name of the proxy Service that is there |
| `SchedulerInstallReferences.FilterResolves` | controllers/schedulerinstall_controller.go:765-774 | the EnvoyFilter has the cluster IP of the EPP Service that is there; its port is a port of that Service if and only if the Services do not clash or the ports agree |
| `SimulatorDeploymentController.Fetched.SetDefaults` | controllers/simulatordeployment_controller.go:140-159 | the in-place assignments compute the defaulted specification |
| `SimulatorDeploymentController.Reconciler.StageDefaults` | controllers/simulatordeployment_controller.go:1004-1029 | stage defaults, the image and the verbosity falling back to the resource's |
| `SimulatorDeploymentController.Reconciler.CreateIfMissing` | controllers/simulatordeployment_controller.go:264-273 | a missing object is created, a live one left alone |
| `SimulatorDeploymentController.Reconciler.CreateOrScale` | controllers/simulatordeployment_controller.go:215-230 | a missing Deployment is created, a live one gets its replicas set if they differ |
| `SimulatorDeploymentController.Reconciler.ReconcileInstance` | controllers/simulatordeployment_controller.go:884-989 | the three objects of one gateway, in order |
| `SimulatorDeploymentController.Reconciler.ReconcileGateways` | controllers/simulatordeployment_controller.go:633-654 | the standard gateway and then the Istio one, each if enabled |
| `SimulatorDeploymentController.Reconciler.ReconcileStage` | controllers/simulatordeployment_controller.go:999-1124 | the Deployment and the Service of one stage |
| `SimulatorDeploymentController.Reconciler.ReconcileSupport` | controllers/simulatordeployment_controller.go:76-90 | the EPP and the gateways, as enabled |
| `SimulatorDeploymentController.Reconciler.ReconcileServing` | controllers/simulatordeployment_controller.go:92-121 | the stages, or the single Deployment and its Service if both are disabled |
| `SimulatorDeploymentController.Reconciler.ReconcileLegacy` | controllers/simulatordeployment_controller.go:108-121 | the single Deployment and its Service |
| `SimulatorDeploymentController.Reconciler.UpdateStatus` | controllers/simulatordeployment_controller.go:283-350 | a missing Deployment leaves the status alone; otherwise its replica counts are copied, the Ready condition is set by whether they are equal, and the other conditions are kept |
| `SimulatorDeploymentController.Reconciler.Reconcile` | controllers/simulatordeployment_controller.go:58-138 | one reconcile with any failing calls: success has done all that was asked for, an error a first part of it |
| `SimulatorDeploymentConvergence.RunMeets` | controllers/simulatordeployment_controller.go:58-138 | a full run meets every step from any cluster, later steps undoing nothing of earlier ones |
| `SimulatorDeploymentConvergence.RerunAbsorbs` | controllers/simulatordeployment_controller.go:58-138 | starting over after any first part of a run ends where the run would have ended |
| `SimulatorDeploymentConvergence.OpsNoRivals` | controllers/simulatordeployment_controller.go:161-230 | only the simulator's own Deployments are scaled, and none twice in one run |
| `SimulatorDeploymentConvergence.Converges` | controllers/simulatordeployment_controller.go:58-138 | a success after any attempts is one success from the original cluster; every object asked for exists and the simulator Deployments have the replicas asked for |
| `SimulatorDeploymentConvergence.FurtherRunSilent` | controllers/simulatordeployment_controller.go:58-138 | a further run makes no Create or Update call and changes nothing |
| `SimulatorDeploymentConvergence.AttemptFrame` | controllers/simulatordeployment_controller.go:215-230 | whatever way an attempt ends, live objects are unchanged but for the replicas of the simulator's Deployments, and new ones were asked for |
| `SimulatorDeploymentConvergence.StatusReportedIff` | controllers/simulatordeployment_controller.go:283-306 | after a success the Deployment whose status is reported exists, unless only the prefill stage is enabled and it did not exist before |
| `SimulatorDeploymentController.ReportTells` | controllers/simulatordeployment_controller.go:283-350 | the status tells the Deployment's counts, and its first Ready condition is true exactly if as many pods are ready as there are; the other conditions keep their places |
| `SimulatorDeploymentSharing.RunsSettleIff` | controllers/simulatordeployment_controller.go:58-138 | after a reconcile of one resource and then of another, from any cluster, one of the first again makes no call if and only if no two steps of theirs scale one Deployment to different replicas |
| `SimulatorDeploymentSharing.OpsAsk` | controllers/simulatordeployment_controller.go:92-121 | the Deployments a reconcile scales and the replicas it asks for are the enabled stages' under their fixed names with default 2, or the single Deployment's under the resource's name |
| `SimulatorDeploymentSharing.SharingSettlesIff` | controllers/simulatordeployment_controller.go:999-1080 | two resources settle together if and only if they are in different namespaces or ask for the same replicas of the prefill stage, of the decode stage, of a single Deployment of the same name, and of a single Deployment named like the decode stage and that stage, as far as both have them |
| `SimulatorDeploymentSharing.NeverBothSilent` | controllers/simulatordeployment_controller.go:999-1080 | otherwise no cluster at all leaves both without a call to make |
| `SimulatorDeploymentReferences.DefaultsKeepUserFields` | controllers/simulatordeployment_controller.go:140-159 | defaults are idempotent, keep every field the user set and set every field relied on |
| `SimulatorDeploymentReferences.StageDefaultsKeepUserFields` | controllers/simulatordeployment_controller.go:1004-1029 | the same of stage defaults, with their fall-back to the resource's image and verbosity |
| `SimulatorDeploymentReferences.EppDefaultsKeepUserFields` | controllers/simulatordeployment_controller.go:417-428 | EPP defaults are idempotent and keep what the user set; unset are one replica, port 8100, verbosity 1 |
| `SimulatorDeploymentReferences.InstanceDefaultsKeepUserFields` | controllers/simulatordeployment_controller.go:885-898 | gateway defaults are idempotent and keep what the user set; unset are one replica, port 8080, and an image that differs between the two kinds |
| `SimulatorDeploymentReferences.Creates` | controllers/simulatordeployment_controller.go:58-138 | the first step on a missing key creates the object it carries, and no later step of the run changes it |
| `SimulatorDeploymentObjects.StageInstalled` | controllers/simulatordeployment_controller.go:999-1124 | a stage's live Deployment has the replicas the user wrote, or two; if it and its Service were missing they have the labels, image, arguments, ports and owner the user wrote, with the fall-back to the resource's image and verbosity |
| `SimulatorDeploymentObjects.LegacyInstalled` | controllers/simulatordeployment_controller.go:161-274 | the same of the single Deployment and its Service, without enabled stages |
| `SimulatorDeploymentObjects.GatewayInstalled` | controllers/simulatordeployment_controller.go:633-976 | the same of a gateway's ConfigMap, Deployment and Service, per kind |
| `SimulatorDeploymentObjects.EppInstalled` | controllers/simulatordeployment_controller.go:352-631 | the same of the EPP's ConfigMap, Deployment and Service |
| `SimulatorDeploymentObjects.TouchesOnlyAsked` | controllers/simulatordeployment_controller.go:58-138 | no attempt touches anything but the objects of enabled parts |
| `SimulatorDeploymentReferences.EppLive` | controllers/simulatordeployment_controller.go:430-619 | after a success that creates them, the live EPP Service selects the live EPP pods and targets a port they expose, and the Deployment has the content asked for |
| `SimulatorDeploymentReferences.StageReached` | controllers/simulatordeployment_controller.go:1032-1112 | a stage's Service asks for that stage's pods on the port asked for, and not for the other stage's |
| `SimulatorDeploymentReferences.StageLive` | controllers/simulatordeployment_controller.go:1032-1112 | after a success that creates them, a stage's live Service reaches its live Deployment's pods |
| `SimulatorDeploymentReferences.LegacyLiveIff` | controllers/simulatordeployment_controller.go:161-273 | after a success from a cluster without them, the Service of the single Deployment's name reaches its pods if and only if no Service of the EPP or of a gateway has that name |
| `SimulatorDeploymentReferences.GatewayLiveIff` | controllers/simulatordeployment_controller.go:765-976 | after a success that creates them, a gateway's live Service reaches its live pods if and only if it is the standard gateway: it targets port 80, the Istio container exposes 8080 |
| `SimulatorDeploymentReferences.StandardSelectsIstioLive` | controllers/simulatordeployment_controller.go:905-967 | after a success that creates them, the standard gateway's live Service selects the Istio gateway's pods too, but not the other way round |
| `SimulatorDeploymentReferences.EppAccountIff` | controllers/simulatordeployment_controller.go:456 | the ServiceAccount the EPP runs under exists after an attempt exactly if it existed before |
| `TwoControllers.ProxyReachesDecodeLive` | controllers/schedulerinstall_controller.go:133-138 | after a success of the install and one of a simulator in its namespace that creates the decode Deployment, the live proxy Service with the default selector selects the live decode pods, and targets a port they expose exactly if it is the stage's |
| `TwoControllers.DefaultsMeet` | controllers/simulatordeployment_controller.go:147-149 | with both names left open in one namespace the two resources mean one Service, with different selectors |
| `TwoControllers.OneContent` | controllers/schedulerinstall_controller.go:516-565 | all writes of an install on the proxy Service have the same type, selector and ports, unless it overwrites the Service itself |
| `TwoControllers.StepStable` | controllers/schedulerinstall_controller.go:543-565 | every single event of either reconciler keeps the proxy Service the install's |
| `TwoControllers.LandedStays` | controllers/schedulerinstall_controller.go:551-563 | in every interleaving of single API calls, with stale reads, lost answers and restarts, once an install write of the proxy Service has landed its type, selector and ports stay that install's |
| `TwoControllers.UndisturbedRun` | controllers/schedulerinstall_controller.go:43-118 | with no failure and nothing in between, the interleaved calls are the series of create-or-updates |
| `SoloRuns.SimulatorUndisturbedRun` | controllers/simulatordeployment_controller.go:58-138 | the same of the simulator: undisturbed reads and writes are the series of creates and scalings |
| `SoloRuns.UndisturbedDelete` | controllers/schedulerinstall_controller.go:914-932 | an undisturbed install whose plan ends by deleting the EnvoyFilter finishes the plan |
| `SoloRuns.SimulatorAlone` | controllers/simulatordeployment_controller.go:58-138 | a simulator with any calls refused, lost or unanswered and any restarts, but nothing of the other in between: once through, the cluster is what one undisturbed run makes of the first one, and from every point before it a full run leads there |
| `SoloRuns.InstallAlone` | controllers/schedulerinstall_controller.go:43-118 | the same of the install's writes |
| `SoloRuns.SimulatorTakesName` | controllers/simulatordeployment_controller.go:233-274 | with the names left open in one namespace, a simulator reconcile from a cluster without the shared Service creates it with the simulator's selector: it is not the install's |
| `SoloRuns.InstallTakesOver` | controllers/schedulerinstall_controller.go:543-565 | an undisturbed reconcile of a sound install makes that Service the install's, whatever it was, and it stays so under every later schedule |
| `OperatorLimits.EppUnreached` | controllers/schedulerinstall_controller.go:530-537 | a sound install and a success from an empty cluster after which the EPP Service targets no gRPC port |
| `OperatorLimits.SecondRunNotSilent` | controllers/schedulerinstall_controller.go:516-565 | a sound install whose second success in a row makes calls again |
| `OperatorLimits.DefaultsSentAgain` | controllers/schedulerinstall_controller.go:462-500 | a sound install with an EPP, and a server that adds to its container: a second success makes calls again |
| `OperatorLimits.PoolNotCovered` | controllers/schedulerinstall_controller.go:611-705 | a sound install after whose success the grant does not cover the route's pool |
| `OperatorLimits.PrefillUnreported` | controllers/simulatordeployment_controller.go:283-306 | a simulator after whose success the Deployment whose status is reported does not exist |
| `OperatorLimits.IstioUnreached` | controllers/simulatordeployment_controller.go:765-976 | a simulator after whose success the Istio gateway's Service does not reach it |
| `OperatorLimits.StandardTakesIstioPods` | controllers/simulatordeployment_controller.go:905-967 | a simulator after whose success the standard gateway's Service selects the Istio gateway's pods |
| `OperatorLimits.EppAccountMissing` | controllers/simulatordeployment_controller.go:456 | a simulator after whose success the EPP Deployment is there and the ServiceAccount it runs under is not |
| `OperatorLimits.StagesFight` | controllers/simulatordeployment_controller.go:999-1080 | two simulators with the same decode stage and different prefill replicas: after a success of each the first one makes calls again |
| `OperatorLimits.SingleFightsStage` | controllers/simulatordeployment_controller.go:108-121 | the same of a single Deployment and another resource's decode stage of the same name |
| `TwoControllers.StableIff` | controllers/schedulerinstall_controller.go:516-565 | the Service stays the install's under every schedule if and only if the install's EPP Service is not the same object (or its EPP is refused anyway) |

## Left out

- Logging, tracing and all metrics but the running-requests gauge and the count of completion-hook runs.
- gRPC, protobuf encodings, JSON text, UUIDs and timestamps: messages are values, the codec is a pair of partial functions, the drawn request id travels with the message (`freshId`), the status time is an argument.
- A JSON decode that fails after writing part of the target map: a failed decode is taken to leave the map alone.
- The bodies of the director, of HandleRequestHeaders, HandleResponseHeaders, HandleResponseBody, HandleResponseBodyModelStreaming and of the reply generators are not part of this model; they enter as functions with the contract that body generators split their input without loss and mark only the last piece, that HandleResponseBody sets the completion flag exactly when it runs the hook, that HandleRequestHeaders, HandleResponseHeaders and HandleResponseBodyModelStreaming leave the target pod, the model name and the completion flag alone, and that director calls return the context they were given.
- ExtProcServer.RequestContext.ReceiveResponseBody: the streaming helper is a recorded call that changes no field of the model; that it leaves the completion flag and the model name alone is part of the contract above.
- SchedulerInstallConvergence.SecondRunSilentIff: the server is taken to store contents as they are sent, as in all other theorems about the cluster; `ServerDefaults` states the second run for servers that add to them, for the writes of the plan and not for the reconciler's method. That it adds to contents only, and the same to the same content, is assumed there.
- Trailer replies: their slots are never filled in the source, so they have no part in a pass.
- A panic inside a turn, and cancellation in the middle of one: a stream ends between turns, at a failing send, or with an error.
- ExtProcServer.RequestContext.Turn: the context fields that follow the HTTP request are one record-valued field, so an alias to one of them kept by a plugin is not modelled.
- ExtProcGauge.GaugeCountsHolders: the order of sends of different streams is not represented: a send touches its own stream only, and what streams share, the gauge, is moved by events of its own.
- IEEE rounding and NaN: scores and weights are reals.
- State that plugins keep between calls: in one cycle a plugin is a function of the pods it is given.
- SchedulerProfile.SchedulerProfile.Run: a nil picker, a nil dereference in the source, is a result of its own.
- WithFilters, WithScorers, WithPicker and String of the profile: setters and printing.
- Kubernetes garbage collection, watches, caches, validation webhooks, CRD schema defaults and resource versions; an Update in `TwoControllers` may overwrite with a stale copy, which resource versions would refuse, and may as well be refused.
- SetControllerReference and CreateOrUpdate are library code; of the first the namespace check and the refusal of a foreign controller are modelled, of the second the order of read, closure and write.
- Literal blobs: the plugin configurations are named by their profile, the Envoy and Istio patches reduced to selector, address and port; probes, volumes' mount paths, environment, image pull policies, route matches and timeouts are constants that no property depends on.
- Pod resources are opaque strings; annotations and status of live objects are one opaque field.
- The integer width of ports matters only in the health port, where 32-bit wrap-around is modelled.
- SimulatorDeploymentController.Reconciler.StageDefaults: the source assigns the defaults to the stage in the fetched copy, here they are assigned to a local copy; nothing reads them again.
- SimulatorDeploymentController.Reconciler.UpdateStatus: the Deployment's own status is written by the cluster, not by the operator, so the counts read from it are an argument.
- reconcileDestinationRule of the SimulatorDeployment reconciler, which does nothing.
- The Python proxies, main.go, scripts, manifests and generated code.
